# Transcoder core, modelled in Dafny

This project models the sequential core of the Transcoder Android library, a
media transcoder that decodes the tracks of one or more sources, processes
them and muxes them into an MP4 file. The model covers:

- **Pipelines.** A chain of steps runs once per tick. Each step answers `Ok`, `Eos`, `Wait` or `Retry`. `Pipeline`, which every segment runs, keeps the last answer and an index into the chain between ticks. `CustomPipeline` is the variant that remembers the `Eos` that ended a step and skips the ended steps on later ticks. The step base classes are `BaseStep`, `DataStep` and `QueuedStep`.
- **Segments.** A segment is one pipeline for one (track, source index) pair. Segments open strictly in source order and are torn down once they end.
- **Time line.** `Timer` sums positions and durations over concatenated sources and localizes a time into one source. It also chains one time interpolator per segment, so that each segment's output continues after the previous one. `MonotonicTimeInterpolator` keeps each track's timestamps strictly increasing.
- **Decoder frame dropping.** `DecoderDropper` re-times decoder output so that dropped input spans leave no gap.
- **Audio buffers.** `ChunkQueue` and `ShortBufferPool` hold decoded audio that may be consumed in part. The PCM byte/time conversions are here too. So are the stereo-to-mono and mono-to-stereo remixers and the cutting stretcher.
- **Track and source selection.** `Tracks` resolves each track's status. `DataSources` selects the source lists and puts silence in place of sources that lack audio. `BlankAudioDataSource` is that silent source.
- **Sinks and wrappers.** `DefaultDataSink` queues samples until the muxer can start. The end-of-stream wrappers change how EOS is reported.
- **Small helpers.** `TrackMap`, `UniformThumbnailRequest` and the RIFF/WAVE reader `WavFile`.

Each source file is one module. Code that mutates state is a class whose methods are proved against a specification. The pipelines and the chunk scan of the WAV reader have pure functions that specify one tick or one turn; the methods are proved to agree with them, and lemmas state what those functions guarantee. Pure code is functions and lemmas.

Several modelling conventions apply throughout:

- **As written.** The operations do what the code does, including the slips listed under Findings. Each slip also has a corrected definition, with the evidently intended property proved about it.
- **Exceptions.** A thrown exception is a `Failure` result. A Kotlin `!!` or `requireNotNull` that can fail is a `Failure` too.
- **Integers.** Kotlin and Java integers are unbounded here. Where the width matters, the wrap-around is written out: `Wrap32`, `ToShort` and the `Long` sentinels.
- **Opaque steps.** A concrete step (decoder, encoder, renderer) is opaque. Its future answers are a finite script, and an exhausted script answers `Wait`.
- **Stand-ins.** `Buffers.Buffer` stands for the part of `java.nio.ShortBuffer`/`ByteBuffer` the code uses. `MuxingSink.Muxer` records what is handed to Android's `MediaMuxer`. `SourceSelection.UserSource` stands for a user's `DataSource`, seen through its tracks, duration and initialization calls. These stand-ins model Java and Android library behaviour, not this repository, and have no rows below.

## Model

| member | source | states |
|---|---|---|
| Steps.QueuedStep.Step | lib/src/main/java/com/otaliastudios/transcoder/internal/pipeline/steps.kt:37-43 | a fresh input is enqueued exactly once (through `enqueueEos` exactly when it is Eos), a non-fresh one is not enqueued; the answer is the next `drain` result |
| Steps.QueuedInputCount | lib/src/main/java/com/otaliastudios/transcoder/internal/pipeline/steps.kt:37-41 | over any run of calls, the number of enqueue operations equals the number of fresh calls |
| Steps.QueuedStep.Initialize | lib/src/main/java/com/otaliastudios/transcoder/internal/pipeline/steps.kt:12-14 | `next` becomes the given channel; the queue and the scripted answers are untouched |
| Steps.DataStep.Initialize | lib/src/main/java/com/otaliastudios/transcoder/internal/pipeline/steps.kt:19-21 | a data step adopts the next step's channel as its own |
| Steps.WireChain | lib/src/main/java/com/otaliastudios/transcoder/internal/pipeline/Pipeline.kt:10-14 | every step but the last receives the channel the next step has after all later steps were initialized; the last step receives none |
| Steps.PassThroughReachesBase | lib/src/main/java/com/otaliastudios/transcoder/internal/pipeline/Pipeline.kt:10-14 | a run of data steps ends up holding the channel of the first step after them that owns one |
| Steps.Then | lib/src/main/java/com/otaliastudios/transcoder/internal/pipeline/Pipeline.kt:53-55 | `then` appends the step at the end of the builder's list and keeps the rest |
| Steps.ThenFold | lib/src/main/java/com/otaliastudios/transcoder/internal/pipeline/Pipeline.kt:53-66 | building from the empty builder with successive `then` calls yields exactly the steps in call order |
| Pipelines.RunPlainStep | lib/src/main/java/com/otaliastudios/transcoder/internal/pipeline/Pipeline.kt:40-47 | the step is first called with the previous state; an Ok or Eos answer is the result, a Wait answer gives none, a Retry answer calls again |
| Pipelines.RunPlainStepCalls | lib/src/main/java/com/otaliastudios/transcoder/internal/pipeline/Pipeline.kt:40-47 | every call of one `executeStep` goes to the same step with the same input, and all but the last were answered Retry |
| Pipelines.PlainFinal | lib/src/main/java/com/otaliastudios/transcoder/internal/pipeline/Pipeline.kt:29-33 | the result is Eos exactly when the last state is Eos or the chain is empty, Ok otherwise |
| Pipelines.PlainWalkWithin | lib/src/main/java/com/otaliastudios/transcoder/internal/pipeline/Pipeline.kt:20-28 | the loop from step k calls only steps k and later |
| Pipelines.PlainTickWalksSubList | lib/src/main/java/com/otaliastudios/transcoder/internal/pipeline/Pipeline.kt:19-22 | `execute` calls only the steps of the sub-list starting at `index` |
| Pipelines.PlainWalkIndex | lib/src/main/java/com/otaliastudios/transcoder/internal/pipeline/Pipeline.kt:24-27 | the stored index and state change only on Eos, and then the index is the Eos step's position counted from the start of the sub-list |
| Pipelines.PlainTickIndex | lib/src/main/java/com/otaliastudios/transcoder/internal/pipeline/Pipeline.kt:19-27 | the same for a whole `execute`: `indexOf` gives a position within the sub-list, not within the chain |
| Pipelines.PlainWalkKeepsWellFormed | lib/src/main/java/com/otaliastudios/transcoder/internal/pipeline/Pipeline.kt:16-27 | the stored index stays within the chain and the stored state stays Ok(Unit) or Eos |
| Pipelines.PlainWalkResult | lib/src/main/java/com/otaliastudios/transcoder/internal/pipeline/Pipeline.kt:22-33 | the loop returns Wait exactly when its last call was answered Wait; otherwise it returns Eos exactly when the chain is empty or the last answer was Eos |
| Pipelines.PlainTickResultKind | lib/src/main/java/com/otaliastudios/transcoder/internal/pipeline/Pipeline.kt:19-33 | `PlainTick`, one `execute`, returns Wait exactly when the last call was answered Wait, Eos exactly when the chain is empty or the last answer was Eos, and Ok(Unit) otherwise |
| Pipelines.PlainWalkStep | lib/src/main/java/com/otaliastudios/transcoder/internal/pipeline/Pipeline.kt:22-28 | one loop iteration: a step that waits ends the loop with Wait; otherwise the loop continues from the next step with the step's output |
| Pipelines.Pipeline.constructor | lib/src/main/java/com/otaliastudios/transcoder/internal/pipeline/Pipeline.kt:6-17 | the state starts at Ok(Unit) and the index at 0, and the steps are wired as `WireChain` states |
| Pipelines.Pipeline.ExecuteStep | lib/src/main/java/com/otaliastudios/transcoder/internal/pipeline/Pipeline.kt:40-47 | the method does what `RunPlainStep` states, consuming the step's answers; the stored state and index are untouched |
| Pipelines.Pipeline.RunAndStore | lib/src/main/java/com/otaliastudios/transcoder/internal/pipeline/Pipeline.kt:22-28 | one loop iteration, with the Eos store; the rest of the loop then gives what the whole loop gives |
| Pipelines.Pipeline.Execute | lib/src/main/java/com/otaliastudios/transcoder/internal/pipeline/Pipeline.kt:19-34 | the result, the new index and state, and the calls made are those of `PlainTick` |
| Pipelines.Pipeline.Release | lib/src/main/java/com/otaliastudios/transcoder/internal/pipeline/Pipeline.kt:36-38 | every step is released once, in chain order, and nothing else changes |
| Pipelines.EndedStepReinvoked | lib/src/main/java/com/otaliastudios/transcoder/internal/pipeline/Pipeline.kt:24-27 | a two-step chain whose first step answers Eos: the next `execute` calls step 0 again with its own Eos output |
| CustomPipelines.RunStep | lib/src/main/java/com/otaliastudios/transcoder/internal/pipeline/CustomPipeline.kt:49-55 | the first call carries the given freshness, and Retry calls again with fresh = false; an Ok or Eos answer is the result, Wait gives none |
| CustomPipelines.RunStepCalls | lib/src/main/java/com/otaliastudios/transcoder/internal/pipeline/CustomPipeline.kt:49-55 | all calls go to one step with one input, only the first may be fresh, and all but the last were answered Retry |
| CustomPipelines.Final | lib/src/main/java/com/otaliastudios/transcoder/internal/pipeline/CustomPipeline.kt:38-42 | the result is Eos exactly when the chain is empty or the last state is Eos |
| CustomPipelines.Walk | lib/src/main/java/com/otaliastudios/transcoder/internal/pipeline/CustomPipeline.kt:24-37 | the head index never moves back or past the chain, the head state changes only with the index, and the loop ends with Ok, Eos or Wait |
| CustomPipelines.WalkUnfold | lib/src/main/java/com/otaliastudios/transcoder/internal/pipeline/CustomPipeline.kt:24-37 | one iteration: a waiting step ends the loop; otherwise the loop goes on from the next step with the output |
| CustomPipelines.WalkStep | lib/src/main/java/com/otaliastudios/transcoder/internal/pipeline/CustomPipeline.kt:24-37 | the same unfolding, with the head index after the step at most one past it |
| CustomPipelines.WalkCallsFrom | lib/src/main/java/com/otaliastudios/transcoder/internal/pipeline/CustomPipeline.kt:24-27 | the loop from step k calls only steps k and later |
| CustomPipelines.TickSkipsEndedSteps | lib/src/main/java/com/otaliastudios/transcoder/internal/pipeline/CustomPipeline.kt:24-25 | `execute` never calls a step before the head index |
| CustomPipelines.WalkKeepsHead | lib/src/main/java/com/otaliastudios/transcoder/internal/pipeline/CustomPipeline.kt:10-11 | the head stays consistent: index 0 with state Ok(Unit), or a later index with an Eos state |
| CustomPipelines.RunStepFreshness | lib/src/main/java/com/otaliastudios/transcoder/internal/pipeline/CustomPipeline.kt:26-52 | every call that is not fresh is a retry of the step just called, or a call of the head step at a nonzero head |
| CustomPipelines.WalkFirstCall | lib/src/main/java/com/otaliastudios/transcoder/internal/pipeline/CustomPipeline.kt:24-27 | the loop's first call goes to the step it starts at, with the state handed in and the freshness `head == 0 \|\| index != head` |
| CustomPipelines.WalkFreshness | lib/src/main/java/com/otaliastudios/transcoder/internal/pipeline/CustomPipeline.kt:26-27 | the same holds for every call of the loop, so only the head step (at a nonzero head) is ever re-fed without being fresh |
| CustomPipelines.TickFreshness | lib/src/main/java/com/otaliastudios/transcoder/internal/pipeline/CustomPipeline.kt:20-37 | the same for a whole `execute` |
| CustomPipelines.WalkEosResult | lib/src/main/java/com/otaliastudios/transcoder/internal/pipeline/CustomPipeline.kt:32-42 | the loop ends with Eos exactly when the chain is empty or the head index has reached the chain's end |
| CustomPipelines.TickEosResult | lib/src/main/java/com/otaliastudios/transcoder/internal/pipeline/CustomPipeline.kt:20-42 | `Tick`, one `execute`, returns Eos exactly when the chain is empty or every step has delivered its Eos |
| CustomPipelines.TickFirstCall | lib/src/main/java/com/otaliastudios/transcoder/internal/pipeline/CustomPipeline.kt:22-27 | `execute` starts at the head step, with the head state, fresh only when the head is 0 |
| CustomPipelines.WalkWaitEnds | lib/src/main/java/com/otaliastudios/transcoder/internal/pipeline/CustomPipeline.kt:27-30 | a Wait result means the last call was answered Wait, and the head is not past that step |
| CustomPipelines.WalkHeadMoves | lib/src/main/java/com/otaliastudios/transcoder/internal/pipeline/CustomPipeline.kt:32-36 | the head moves only to one past a step that answered Eos, and it keeps that Eos as head state |
| CustomPipelines.HeadMovesStep | lib/src/main/java/com/otaliastudios/transcoder/internal/pipeline/CustomPipeline.kt:32-36 | the same, carried over one loop iteration |
| CustomPipelines.TickHeadUpdates | lib/src/main/java/com/otaliastudios/transcoder/internal/pipeline/CustomPipeline.kt:20-43 | for a whole `execute`: the Wait and head rules above, and without any Eos answer the head is unchanged |
| CustomPipelines.CustomPipeline.constructor | lib/src/main/java/com/otaliastudios/transcoder/internal/pipeline/CustomPipeline.kt:7-17 | the head starts at index 0 with state Ok(Unit), and the steps are wired as `WireChain` states |
| CustomPipelines.CustomPipeline.ExecuteStep | lib/src/main/java/com/otaliastudios/transcoder/internal/pipeline/CustomPipeline.kt:49-55 | the method does what `RunStep` states, consuming the step's answers; the head is untouched |
| CustomPipelines.CustomPipeline.RunAndMoveHead | lib/src/main/java/com/otaliastudios/transcoder/internal/pipeline/CustomPipeline.kt:27-36 | one loop iteration, with the head move on Eos; the rest of the loop then gives what the whole loop gives |
| CustomPipelines.CustomPipeline.Execute | lib/src/main/java/com/otaliastudios/transcoder/internal/pipeline/CustomPipeline.kt:20-43 | the result, the new head, and the calls made are those of `Tick` |
| CustomPipelines.CustomPipeline.Release | lib/src/main/java/com/otaliastudios/transcoder/internal/pipeline/CustomPipeline.kt:45-47 | every step is released once, in chain order, and nothing else changes |
| CustomPipelines.FirstTickStartsAtZero | lib/src/main/java/com/otaliastudios/transcoder/internal/pipeline/CustomPipeline.kt:10-27 | a new pipeline's first `execute` calls step 0 fresh, with Ok(Unit) |
| CustomPipelines.EndedStepSkipped | lib/src/main/java/com/otaliastudios/transcoder/internal/pipeline/CustomPipeline.kt:32-36 | on the two-step chain of `EndedStepReinvoked`, the next `execute` starts at step 1 and never calls step 0 again |
| SegmentModel.Segment.constructor | lib/src/main/java/com/otaliastudios/transcoder/internal/Segment.kt:10-17 | a new segment has no state yet, so it can advance |
| SegmentModel.Segment.Advance | lib/src/main/java/com/otaliastudios/transcoder/internal/Segment.kt:19-22 | the state becomes the result of one `Pipeline.execute()` on the segment's pipeline, as `PlainTick` states, and the pipeline's stored answer, index and step calls follow that tick; the answer is true exactly when the result is Ok or Eos |
| SegmentModel.AdvanceOutcome | lib/src/main/java/com/otaliastudios/transcoder/internal/Segment.kt:19-27 | after Eos the segment cannot advance (`canAdvance`, `CanAdvanceFrom`) although `advance` answered true; after Ok or Wait it can |
| SegmentModel.SegmentEndsWithChain | lib/src/main/java/com/otaliastudios/transcoder/internal/Segment.kt:24-27 | after one `Pipeline.execute()` (`PlainTick`) the segment stops advancing exactly when the chain is empty or the tick's last step call answered Eos; with `Pipeline`'s stored index as written, that call may be to a step that had already ended |
| SegmentModel.Segment.Release | lib/src/main/java/com/otaliastudios/transcoder/internal/Segment.kt:29-31 | releases every pipeline step in order; the pipeline's state is untouched |
| SegmentCoordination.SelectOps | lib/src/main/java/com/otaliastudios/transcoder/internal/Segments.kt:78-92 | when the track is active, the source selects it first, then the other track too if that track is active and the same source serves it; when the track is inactive, nothing is selected |
| SegmentCoordination.ReleaseOps | lib/src/main/java/com/otaliastudios/transcoder/internal/Segments.kt:114-116 | the source releases the track exactly when the track is active |
| SegmentCoordination.SourceOpsOnlyActive | lib/src/main/java/com/otaliastudios/transcoder/internal/Segments.kt:78-116 | a source only ever selects or releases active tracks |
| SegmentCoordination.Segments.constructor | lib/src/main/java/com/otaliastudios/transcoder/internal/Segments.kt:12-22 | no current segments, current indices -1, requested indices 0 |
| SegmentCoordination.Segments.TryCreateSegment | lib/src/main/java/com/otaliastudios/transcoder/internal/Segments.kt:73-109 | with no source at the index, returns null and changes nothing; otherwise selects tracks as `SelectOps` states, sets the current index, and stores and returns a fresh segment over a fresh `Pipeline` with the factory's steps, no stored answer and step index 0 |
| SegmentCoordination.Segments.DestroySegment | lib/src/main/java/com/otaliastudios/transcoder/internal/Segments.kt:111-118 | releases the segment's pipeline and, when the track is active, the source's track; the requested index becomes the segment's index plus one |
| SegmentCoordination.Segments.Next | lib/src/main/java/com/otaliastudios/transcoder/internal/Segments.kt:42-66 | with lifecycle ownership, a segment is returned exactly when `hasNext` held; a returned segment is current and can advance; a segment that can still advance is returned as is; without ownership an ended segment gives null; the other track is untouched |
| SegmentCoordination.Segments.ReplaceEnded | lib/src/main/java/com/otaliastudios/transcoder/internal/Segments.kt:57-60 | destroys the ended segment and retries `next`: the successor is returned exactly when `hasNext` held |
| SegmentCoordination.Segments.Release | lib/src/main/java/com/otaliastudios/transcoder/internal/Segments.kt:68-71 | destroys the current video segment and then the current audio segment, each as `DestroySegment` states |
| Steps.QueuedStep.constructor | lib/src/main/java/com/otaliastudios/transcoder/internal/pipeline/steps.kt:9-10 | nothing queued, no next channel yet (the `lateinit` field), and the drain answers the step will give |
| Steps.DataStep.constructor | lib/src/main/java/com/otaliastudios/transcoder/internal/pipeline/steps.kt:18 | no channel yet (the `lateinit` field) |
| TimeLine.DurationIsReadPlusDeclared | lib/src/main/java/com/otaliastudios/transcoder/internal/Timer.kt:18-21 | the duration fold equals the read positions of the sources before `current` plus the declared durations of `current` and later sources |
| TimeLine.PositionIsReadSoFar | lib/src/main/java/com/otaliastudios/transcoder/internal/Timer.kt:23-25 | the position fold equals the read positions of the sources up to and including `current` |
| TimeLine.Timeline.PositionUs | lib/src/main/java/com/otaliastudios/transcoder/internal/Timer.kt:27-33 | 0 for an inactive track; otherwise the read positions of the sources up to and including the current one |
| TimeLine.Timeline.DurationUs | lib/src/main/java/com/otaliastudios/transcoder/internal/Timer.kt:35-41 | 0 for an inactive track; otherwise the read positions of the finished sources plus the declared durations of the rest |
| TimeLine.Timeline.TotalDurationUs | lib/src/main/java/com/otaliastudios/transcoder/internal/Timer.kt:43-47 | `Long.MAX_VALUE` when no track is active; otherwise the smallest duration among the active tracks |
| TimeLine.Timeline.Progress | lib/src/main/java/com/otaliastudios/transcoder/internal/Timer.kt:49-56 | zero exactly when the duration is 0; otherwise position over duration, kept as an exact ratio |
| TimeLine.Timeline.Localize | lib/src/main/java/com/otaliastudios/transcoder/internal/Timer.kt:60-69 | null for an inactive track; a result lies between 0 and the source's declared duration and equals the position minus the durations of the earlier sources |
| TimeLine.LocalizeRoundTrip | lib/src/main/java/com/otaliastudios/transcoder/internal/Timer.kt:60-69 | localizing the earlier sources' total duration plus an offset within the source gives back that offset |
| TimeLine.ChainedOutputsIncrease | lib/src/main/java/com/otaliastudios/transcoder/internal/Timer.kt:71-93 | when every source's interpolator sees increasing inputs, the chained outputs increase across source boundaries and start at the first base |
| TimeLine.SegmentInterpolator.constructor | lib/src/main/java/com/otaliastudios/transcoder/internal/Timer.kt:72-83 | a new interpolator has no first input yet (`Long.MAX_VALUE`), last output 0 and the given output base |
| TimeLine.SegmentInterpolator.Interpolate | lib/src/main/java/com/otaliastudios/transcoder/internal/Timer.kt:85-92 | `Long.MAX_VALUE` answers the last output and changes nothing; any other input fixes the first input if unset and returns the user's interpolation of the base plus the input's offset |
| TimeLine.Timer.constructor | lib/src/main/java/com/otaliastudios/transcoder/internal/Timer.kt:58 | the interpolator cache starts empty |
| TimeLine.Timer.Interpolator | lib/src/main/java/com/otaliastudios/transcoder/internal/Timer.kt:71-83 | a cached interpolator is returned as is; a new one is cached with base 0 for index 0, or the previous index's last output plus 10; if the previous index has no interpolator, the `!!` fails and nothing is cached |
| MonotonicTime.NextTime | lib/src/main/java/com/otaliastudios/transcoder/time/MonotonicTimeInterpolator.kt:23-26 | the first time passes unchanged; after that the result is above the previous one, not below the input, and equals either the input or the previous time plus 1 |
| MonotonicTime.DocumentedExample | lib/src/main/java/com/otaliastudios/transcoder/time/MonotonicTimeInterpolator.kt:16 | 20 30 40 50 10 20 30 becomes 20 30 40 50 51 52 53 |
| MonotonicTime.Run | lib/src/main/java/com/otaliastudios/transcoder/time/MonotonicTimeInterpolator.kt:20-26 | the outputs of a sequence of `interpolate` calls on one track: one output per input |
| MonotonicTime.RunIncreasing | lib/src/main/java/com/otaliastudios/transcoder/time/MonotonicTimeInterpolator.kt:7-26 | with no `Long` overflow, the outputs strictly increase and all stay above the previous output |
| MonotonicTime.MonotonicTimeInterpolator.constructor | lib/src/main/java/com/otaliastudios/transcoder/time/MonotonicTimeInterpolator.kt:19 | both tracks start at `Long.MIN_VALUE` |
| MonotonicTime.MonotonicTimeInterpolator.Interpolate | lib/src/main/java/com/otaliastudios/transcoder/time/MonotonicTimeInterpolator.kt:20-22 | returns `NextTime` of the track's last output and records the result for that track only |
| Dropping.Key | lib/src/main/java/com/otaliastudios/transcoder/internal/codec/DecoderDropper.kt:10 | a non-empty range is its own map key; every empty range falls on an empty key, as Kotlin's range equality makes all empty ranges equal |
| Dropping.FirstContaining | lib/src/main/java/com/otaliastudios/transcoder/internal/codec/DecoderDropper.kt:51-56 | the index of the first closed range that contains the time, or none when no closed range contains it |
| Dropping.CloseKeepsDeltas | lib/src/main/java/com/otaliastudios/transcoder/internal/codec/DecoderDropper.kt:35-40 | closing a range that starts after every closed one keeps each recorded delta equal to the gap between its range and the one before |
| Dropping.OwnRangeFirst | lib/src/main/java/com/otaliastudios/transcoder/internal/codec/DecoderDropper.kt:51-56 | with ordered disjoint ranges, a time inside range `k` is matched by range `k` and no earlier one |
| Dropping.NoGapAcrossDrop | lib/src/main/java/com/otaliastudios/transcoder/internal/codec/DecoderDropper.kt:45-57 | the first frame of a closed range is shifted onto the same output time as the last frame of the range before it, so dropped frames leave no gap; inside a range, output spacing equals input spacing |
| Dropping.NoGapBeforePending | lib/src/main/java/com/otaliastudios/transcoder/internal/codec/DecoderDropper.kt:58-65 | the first frame of the finite pending range is shifted onto the output time of the last closed frame |
| Dropping.DecoderDropper.constructor | lib/src/main/java/com/otaliastudios/transcoder/internal/codec/DecoderDropper.kt:10-15 | no closed ranges, no deltas, no pending range, no first input or output time |
| Dropping.DecoderDropper.Input | lib/src/main/java/com/otaliastudios/transcoder/internal/codec/DecoderDropper.kt:25-43 | records the first input time once; a rendered frame opens the pending range or extends it to the frame; a dropped frame closes a finite pending range, recording its gap as its delta, and clears the pending range; every closed range keeps a delta |
| Dropping.DecoderDropper.Output | lib/src/main/java/com/otaliastudios/transcoder/internal/codec/DecoderDropper.kt:45-69 | records the first output time once; fails when no input came first (the `!!`); otherwise returns the time shifted by the deltas up to the first closed range containing it in input scale, or inside the finite pending range by all deltas plus its gap, or null; the ranges are unchanged |
| Chunks.FirstFit | lib/src/main/java/com/otaliastudios/transcoder/internal/audio/chunks.kt:91 | the index of the first pooled buffer whose capacity fits the request, or none when none fits |
| Chunks.Fill | lib/src/main/java/com/otaliastudios/transcoder/internal/audio/chunks.kt:98-99 | the pooled buffer receives the original's remaining shorts from position 0 and the original is consumed to its limit without being altered |
| Chunks.ShortBufferPool.constructor | lib/src/main/java/com/otaliastudios/transcoder/internal/audio/chunks.kt:87 | the pool starts empty |
| Chunks.ShortBufferPool.Take | lib/src/main/java/com/otaliastudios/transcoder/internal/audio/chunks.kt:89-101 | reuses and removes the first pooled buffer large enough, else allocates one of at least 512 shorts; either way it holds the original's remaining shorts, the original is consumed, and the buffers left in the pool are untouched |
| Chunks.ShortBufferPool.RemoveAt | lib/src/main/java/com/otaliastudios/transcoder/internal/audio/chunks.kt:93 | removes and returns the pooled buffer at the index, the others keeping their order |
| Chunks.ShortBufferPool.Give | lib/src/main/java/com/otaliastudios/transcoder/internal/audio/chunks.kt:103-106 | the buffer is cleared and appended to the pool; its contents and the other pooled buffers are untouched |
| Chunks.StalledChunkLosesTime | lib/src/main/java/com/otaliastudios/transcoder/internal/audio/chunks.kt:65-71 | for a chunk at 1 s of which nothing was consumed, the requeued time as written (`RequeueTimeAsWritten`) is 0, while the corrected one stays at 1 s |
| Chunks.RequeueTimeWithinChunk | lib/src/main/java/com/otaliastudios/transcoder/internal/audio/chunks.kt:65-71 | the corrected requeue time (`RequeueTime`) lies between the chunk's time and its time plus the duration of its shorts, and equals the chunk's time when nothing was consumed |
| Chunks.RunAction | lib/src/main/java/com/otaliastudios/transcoder/internal/audio/chunks.kt:59-61 | after the action the buffer's limit is restored and its position is the action's, capped at that limit |
| Chunks.ChunkQueue.constructor | lib/src/main/java/com/otaliastudios/transcoder/internal/audio/chunks.kt:28-29 | an empty queue over an empty pool |
| Chunks.ChunkQueue.Size | lib/src/main/java/com/otaliastudios/transcoder/internal/audio/chunks.kt:31-32 | the size is 0 exactly when the queue is empty |
| Chunks.ChunkQueue.Invoke | lib/src/main/java/com/otaliastudios/transcoder/internal/audio/chunks.kt:38 | a caller's release is recorded as released; a pool release gives the copy back to the pool |
| Chunks.ChunkQueue.Enqueue | lib/src/main/java/com/otaliastudios/transcoder/internal/audio/chunks.kt:34-47 | an empty buffer is released at once and not queued; with fewer than three chunks queued the buffer itself is appended with the caller's release; otherwise a pooled copy with the same contents is appended and the caller's buffer is released at once; earlier chunks are untouched |
| Chunks.ChunkQueue.EnqueueCopy | lib/src/main/java/com/otaliastudios/transcoder/internal/audio/chunks.kt:36-39 | appends a pooled copy holding the buffer's contents, released back to the pool, and releases the caller's buffer |
| Chunks.ChunkQueue.EnqueueEos | lib/src/main/java/com/otaliastudios/transcoder/internal/audio/chunks.kt:49-51 | appends the end-of-stream marker and releases nothing |
| Chunks.ChunkQueue.Drain | lib/src/main/java/com/otaliastudios/transcoder/internal/audio/chunks.kt:53-82 | draining an empty queue throws; an end-of-stream head is removed and yields `eos`; a chunk head yields the action's result and is released; if the action left shorts unread, a pooled copy of exactly those shorts goes back to the front, stamped as written (`RequeueTimeAsWritten`: the duration of the consumed shorts alone), with the same stretch |
| Chunks.ChunkQueue.CopyOut | lib/src/main/java/com/otaliastudios/transcoder/internal/audio/chunks.kt:68 | takes a pooled copy of the chunk's unread shorts, distinct from every queued and pooled buffer |
| Chunks.ChunkQueue.PushFront | lib/src/main/java/com/otaliastudios/transcoder/internal/audio/chunks.kt:70-74 | the chunk becomes the head and the rest of the queue is unchanged |
| Chunks.ChunkQueue.DrainChunk | lib/src/main/java/com/otaliastudios/transcoder/internal/audio/chunks.kt:57-81 | the removed chunk is released; unread shorts go back to the front as a pooled copy stamped with `RequeueTimeAsWritten`; a fully read chunk leaves the rest of the queue as it was |
| Conversions.BitRate | lib/src/main/java/com/otaliastudios/transcoder/internal/audio/conversions.kt:20-23 | eight bits for every byte of the per-second byte rate `ByteRate` |
| Conversions.SamplesToBytes | lib/src/main/java/com/otaliastudios/transcoder/internal/audio/conversions.kt:25-28 | with at least one channel, a non-negative sample count never gives fewer bytes than samples |
| Conversions.CeilDiv | lib/src/main/java/com/otaliastudios/transcoder/internal/audio/conversions.kt:33 | the ceiling of the quotient: the least `q` with `a <= q * b` |
| Conversions.BytesToUsBounds | lib/src/main/java/com/otaliastudios/transcoder/internal/audio/conversions.kt:10-18 | the microseconds of a byte count (`BytesToUs`) are the truncated quotient: `us * byteRate <= 1e6 * bytes < (us + 1) * byteRate` |
| Conversions.BytesRoundTrip | lib/src/main/java/com/otaliastudios/transcoder/internal/audio/conversions.kt:10-34 | converting bytes to microseconds and back never gives more bytes than were there |
| Conversions.UsRoundTrip | lib/src/main/java/com/otaliastudios/transcoder/internal/audio/conversions.kt:10-34 | converting microseconds to bytes (`UsToBytes`, rounding up) and back never gives less time than was there |
| Conversions.BytesToUsMonotone | lib/src/main/java/com/otaliastudios/transcoder/internal/audio/conversions.kt:10-18 | more bytes never last less time |
| Conversions.ShortConversions | lib/src/main/java/com/otaliastudios/transcoder/internal/audio/conversions.kt:36-42 | shorts convert as two bytes each, both to (`ShortsToUs`) and from (`UsToShorts`) microseconds |
| TrackResolution.CountPresent | lib/src/main/java/com/otaliastudios/transcoder/internal/Tracks.kt:65-72 | the number of sources that have the track: zero exactly when none has it, the list's length exactly when all have it |
| TrackResolution.ResolveTrack | lib/src/main/java/com/otaliastudios/transcoder/internal/Tracks.kt:55-81 | no source list, or no source with the track, resolves to ABSENT; all sources having it takes the strategy's status; some but not all having it is an error |
| TrackResolution.ResolveVideoStatus | lib/src/main/java/com/otaliastudios/transcoder/internal/Tracks.kt:43-47 | only PASS_THROUGH can change, and it becomes COMPRESSING exactly when compression is forced or the rotation is non-zero |
| TrackResolution.ResolveAudioStatus | lib/src/main/java/com/otaliastudios/transcoder/internal/Tracks.kt:49-53 | only PASS_THROUGH can change, and it becomes COMPRESSING exactly when compression is forced |
| TrackResolution.Tracks.Active | lib/src/main/java/com/otaliastudios/transcoder/internal/Tracks.kt:38-41 | a track is active exactly when its status is transcoding, and then carries that status |
| TrackResolution.NewTracks | lib/src/main/java/com/otaliastudios/transcoder/internal/Tracks.kt:26-36 | construction fails exactly when either track fails to resolve, with the audio error first; otherwise each status is the resolved one after forcing |
| TrackResolution.AbsentNeverActive | lib/src/main/java/com/otaliastudios/transcoder/internal/Tracks.kt:26-41 | a track no source provides is never active |
| TrackResolution.ForcingKeepsActivity | lib/src/main/java/com/otaliastudios/transcoder/internal/Tracks.kt:43-53 | forcing compression never changes whether a track is transcoding |
| SourceSelection.CountWith | lib/src/main/java/com/otaliastudios/transcoder/internal/DataSources.kt:45-54 | the number of sources that have the track: zero exactly when none has it, the list's length exactly when all have it |
| SourceSelection.SelectVideo | lib/src/main/java/com/otaliastudios/transcoder/internal/DataSources.kt:44-51 | with no video source having a video track, none is kept and all are discarded; otherwise the list is kept as is, mixed or not |
| SourceSelection.InitAll | lib/src/main/java/com/otaliastudios/transcoder/internal/DataSources.kt:22-27 | every source ends initialized, and `initialize` is called once on exactly those that were not |
| SourceSelection.SelectAudioAsWritten | lib/src/main/java/com/otaliastudios/transcoder/internal/DataSources.kt:33-69 | as written: no audio track anywhere discards all; all having one keeps the list; a mix keeps the sources with audio in place and puts a new silent source, created after the init pass and so never initialized and without a format, in place of each other one, which is discarded |
| SourceSelection.SelectAudio | lib/src/main/java/com/otaliastudios/transcoder/internal/DataSources.kt:53-69 | corrected: as above, but each silent replacement is initialized, so it has the raw-audio format and starts at position 0 |
| SourceSelection.MixedAudioAsWrittenFails | lib/src/main/java/com/otaliastudios/transcoder/internal/DataSources.kt:53-69 | as written, a mixed audio list makes track resolution see some sources with audio and some without, so it fails |
| SourceSelection.MixedAudioResolves | lib/src/main/java/com/otaliastudios/transcoder/internal/DataSources.kt:53-69 | with initialized silent replacements, every audio source has a format and the audio track resolves to the strategy's status |
| SourceSelection.Distinct | lib/src/main/java/com/otaliastudios/transcoder/internal/DataSources.kt:78 | the list without repeats: same members, each once |
| SourceSelection.DeinitAll | lib/src/main/java/com/otaliastudios/transcoder/internal/DataSources.kt:23-31 | every source ends deinitialized, and `deinitialize` is called once on exactly those that were initialized |
| SourceSelection.DataSources.constructor | lib/src/main/java/com/otaliastudios/transcoder/internal/DataSources.kt:12-69 | all given sources are initialized; the video list is selected as above; the audio list keeps its length, a source with audio is kept and one without becomes a silent source of the same duration that, as written, is never initialized and has no format; the discarded list holds the unused video sources and then the unused audio sources |
| SourceSelection.DataSources.Get | lib/src/main/java/com/otaliastudios/transcoder/internal/DataSources.kt:71-74 | the audio list for audio, the video list for video |
| SourceSelection.DataSources.Has | lib/src/main/java/com/otaliastudios/transcoder/internal/DataSources.kt:76 | a track is present exactly when its list is not empty |
| SourceSelection.DataSources.All | lib/src/main/java/com/otaliastudios/transcoder/internal/DataSources.kt:78 | every audio and video source, each once |
| SourceSelection.DataSources.Release | lib/src/main/java/com/otaliastudios/transcoder/internal/DataSources.kt:80-86 | every kept and discarded source ends deinitialized, and only the initialized ones see a `deinitialize` call |
| EosWrappers.SinkWrite | lib/src/main/java/com/otaliastudios/transcoder/internal/utils/eos.kt:18-28 | when not ignoring, the write passes through unchanged; when ignoring, the end-of-stream flag is cleared, the write is dropped exactly when it is empty and has no other flag, and offset, size and time are kept |
| EosWrappers.OtherFlagsKept | lib/src/main/java/com/otaliastudios/transcoder/internal/utils/eos.kt:20 | clearing the end-of-stream flag keeps every other flag bit |
| EosWrappers.DrainedBrackets | lib/src/main/java/com/otaliastudios/transcoder/internal/utils/eos.kt:43-56 | the forcing wrapper reports drained whenever the source is, the ignoring wrapper only when the source is, and each agrees with the source when `force` does not decide |
| DownMixRemixer.DownMixAsWritten | lib/src/main/java/com/otaliastudios/transcoder/remix/DownMixAudioRemixer.java:26-41 | as written, with `a * b` wrapping to 32 bits and the `(short)` cast, every output is a short |
| DownMixRemixer.LoudPairWrapsAround | lib/src/main/java/com/otaliastudios/transcoder/remix/DownMixAudioRemixer.java:37-41 | as written, two full-scale positive samples (32767, 32767) mix to -32768; the corrected mix gives 32767 |
| DownMixRemixer.QuietPairStaysQuiet | lib/src/main/java/com/otaliastudios/transcoder/remix/DownMixAudioRemixer.java:31-34 | corrected (`DownMixSample`): two negative samples mix to a short no louder than the quieter side: at most the smaller of the two |
| DownMixRemixer.LoudPairStaysLoud | lib/src/main/java/com/otaliastudios/transcoder/remix/DownMixAudioRemixer.java:35-41 | corrected (`DownMixSample`): two non-negative samples mix to a short at least the larger of the two |
| DownMixRemixer.GetRemixedSize | lib/src/main/java/com/otaliastudios/transcoder/remix/DownMixAudioRemixer.java:46-48 | half the input size, rounded down |
| DownMixRemixer.Remix | lib/src/main/java/com/otaliastudios/transcoder/remix/DownMixAudioRemixer.java:16-43 | processes the smaller of half the input's remaining shorts and the output's room; each output short is the mix as written (`DownMixAsWritten`, with the `int` overflow) of the next input pair; both positions advance by what was consumed and written; nothing else in the output changes |
| UpMixRemixer.GetRemixedSize | lib/src/main/java/com/otaliastudios/transcoder/internal/audio/remix/UpMixAudioRemixer.java:29-31 | twice the input size, when that fits an `int` |
| UpMixRemixer.Remix | lib/src/main/java/com/otaliastudios/transcoder/internal/audio/remix/UpMixAudioRemixer.java:15-26 | processes the smaller of the input's remaining shorts and half the output's room; each input short is written twice; both positions advance; nothing else in the output changes |
| UpMixRemixer.EverySampleTwice | lib/src/main/java/com/otaliastudios/transcoder/internal/audio/remix/UpMixAudioRemixer.java:20-24 | output shorts `2i` and `2i + 1` both equal input short `i` |
| CutStretcher.Stretch | lib/src/main/java/com/otaliastudios/transcoder/stretch/CutAudioStretcher.java:14-23 | throws when the input has fewer remaining shorts than the output has room, changing nothing; otherwise the output is filled with the first input shorts it has room for, the rest of the input is skipped, and both buffers end at their limits |
| UniformThumbnails.New | lib/src/main/java/com/otaliastudios/transcoder/thumbnail/UniformThumbnailRequest.kt:3-9 | the request is accepted exactly when at least two thumbnails are asked for |
| UniformThumbnails.Locate | lib/src/main/java/com/otaliastudios/transcoder/thumbnail/UniformThumbnailRequest.kt:11-20 | `count` positions, the i-th being i times the truncated step `durationUs / (count - 1)` |
| UniformThumbnails.StepFits | lib/src/main/java/com/otaliastudios/transcoder/thumbnail/UniformThumbnailRequest.kt:14 | for a non-negative duration the step is non-negative and `count - 1` steps fit in the duration |
| UniformThumbnails.PositionsWithinDuration | lib/src/main/java/com/otaliastudios/transcoder/thumbnail/UniformThumbnailRequest.kt:11-20 | the located positions start at 0, never decrease and end within the duration |
| TrackMaps.TrackMap.Get | lib/src/main/java/com/otaliastudios/transcoder/internal/utils/TrackMap.kt:51 | succeeds exactly when the slot holds a value, and returns that value; a null slot throws |
| TrackMaps.TrackMap.GetOrNull | lib/src/main/java/com/otaliastudios/transcoder/internal/utils/TrackMap.kt:15 | the slot's value, or null |
| TrackMaps.TrackMap.Set | lib/src/main/java/com/otaliastudios/transcoder/internal/utils/TrackMap.kt:53-55 | the given slot takes the value and the other slot is unchanged |
| TrackMaps.SizeCountsPresent | lib/src/main/java/com/otaliastudios/transcoder/internal/utils/TrackMap.kt:19 | the size is the number of slots holding a value |
| TrackMaps.ValuesOrder | lib/src/main/java/com/otaliastudios/transcoder/internal/utils/TrackMap.kt:21 | iteration yields video before audio and only values held in the slots |
| TrackMaps.Reset | lib/src/main/java/com/otaliastudios/transcoder/internal/utils/TrackMap.kt:27-30 | setting video then audio leaves exactly the two given values |
| TrackMaps.MutableTrackMap.constructor | lib/src/main/java/com/otaliastudios/transcoder/internal/utils/TrackMap.kt:47-50 | the map holds the two given values |
| TrackMaps.MutableTrackMap.Set | lib/src/main/java/com/otaliastudios/transcoder/internal/utils/TrackMap.kt:53-55 | the given slot takes the value and the other slot is unchanged |
| TrackMaps.MutableTrackMap.ResetBoth | lib/src/main/java/com/otaliastudios/transcoder/internal/utils/TrackMap.kt:27-30 | `reset` in place: the contents become `Reset` of the old contents, so exactly the two given values |
| TrackMaps.MutableTrackMap.Get | lib/src/main/java/com/otaliastudios/transcoder/internal/utils/TrackMap.kt:51 | succeeds exactly when the slot holds a value, and returns it |
| BlankAudio.PeriodSize | lib/src/main/java/com/otaliastudios/transcoder/source/BlankAudioDataSource.java:28 | a period is 2048 stereo 16-bit samples, 8192 bytes |
| BlankAudio.FullPeriodSpan | lib/src/main/java/com/otaliastudios/transcoder/source/BlankAudioDataSource.java:113-124 | a full period advances the position by 46439 microseconds |
| BlankAudio.DrainedStaysDrained | lib/src/main/java/com/otaliastudios/transcoder/source/BlankAudioDataSource.java:124-135 | a read never moves the position back, so a drained source stays drained |
| BlankAudio.FullReadsUntilDrained | lib/src/main/java/com/otaliastudios/transcoder/source/BlankAudioDataSource.java:109-135 | after `k` full reads from 0 the position is `k * 46439`, and the source is drained exactly when that reaches the duration |
| BlankAudio.ReadChunk.constructor | lib/src/main/java/com/otaliastudios/transcoder/source/BlankAudioDataSource.java:109 | the chunk holds the given buffer, not yet a key frame or rendered, at time 0 |
| BlankAudio.BlankAudioDataSource.constructor | lib/src/main/java/com/otaliastudios/transcoder/source/BlankAudioDataSource.java:30-39 | the duration is kept; no buffer, no format, position 0, not initialized |
| BlankAudio.BlankAudioDataSource.Initialize | lib/src/main/java/com/otaliastudios/transcoder/source/BlankAudioDataSource.java:41-51 | a fresh zeroed period buffer and the raw-audio format (44100 Hz, stereo, bit rate from the conversions, max input one period); initialized; the position is kept |
| BlankAudio.BlankAudioDataSource.Deinitialize | lib/src/main/java/com/otaliastudios/transcoder/source/BlankAudioDataSource.java:63-67 | position back to 0 and not initialized; buffer and format are kept |
| BlankAudio.BlankAudioDataSource.IsInitialized | lib/src/main/java/com/otaliastudios/transcoder/source/BlankAudioDataSource.java:70-72 | true exactly when `initialize` has run and `deinitialize` has not run since |
| BlankAudio.BlankAudioDataSource.SeekTo | lib/src/main/java/com/otaliastudios/transcoder/source/BlankAudioDataSource.java:91-95 | the position becomes the requested one, which is returned |
| BlankAudio.BlankAudioDataSource.GetTrackFormat | lib/src/main/java/com/otaliastudios/transcoder/source/BlankAudioDataSource.java:97-101 | null for video; for audio, the format set by `initialize` (null before it) |
| BlankAudio.BlankAudioDataSource.CanReadTrack | lib/src/main/java/com/otaliastudios/transcoder/source/BlankAudioDataSource.java:103-106 | only the audio track can be read |
| BlankAudio.BlankAudioDataSource.ReadUs | lib/src/main/java/com/otaliastudios/transcoder/source/BlankAudioDataSource.java:128-130 | the current read position in microseconds |
| BlankAudio.BlankAudioDataSource.IsDrained | lib/src/main/java/com/otaliastudios/transcoder/source/BlankAudioDataSource.java:132-135 | drained exactly when the position reached the duration |
| BlankAudio.BlankAudioDataSource.ReadTrack | lib/src/main/java/com/otaliastudios/transcoder/source/BlankAudioDataSource.java:108-125 | before `initialize` the read throws and changes nothing; otherwise `min(remaining, 8192)` zero bytes are written at the chunk buffer's position, the buffer is bounded to them, the rest of it is untouched, the chunk is a rendered key frame at the old position, and the position advances by those bytes' duration |
| MuxingSink.CheckOutputFormat | lib/src/main/java/com/otaliastudios/transcoder/sink/DefaultDataSinkChecks.java:34-70 | a video format passes exactly when its mime type is AVC, an audio format exactly when it is AAC |
| MuxingSink.QueuedBytesAt | lib/src/main/java/com/otaliastudios/transcoder/sink/DefaultDataSink.java:172-177 | the bytes of queued sample `k` sit in the queue buffer right after those of the samples before it, at the offset the drain loop has reached |
| MuxingSink.FlattenPrefix | lib/src/main/java/com/otaliastudios/transcoder/sink/DefaultDataSink.java:157-177 | the bytes of the first `k` queued samples are a prefix of the queue buffer's contents |
| MuxingSink.FirstUnindexed | lib/src/main/java/com/otaliastudios/transcoder/sink/DefaultDataSink.java:173-175 | the first queued sample whose track has no muxer index, where the drain's index lookup gives null and unboxing it throws a `NullPointerException`; all earlier ones have an index |
| MuxingSink.StartIndicesNameFormats | lib/src/main/java/com/otaliastudios/transcoder/sink/DefaultDataSink.java:117-126 | a track gets a muxer index exactly when it is transcoding; that index names the track's last format among the added tracks, and video comes before audio |
| MuxingSink.CopySample | lib/src/main/java/com/otaliastudios/transcoder/sink/DefaultDataSink.java:155-157 | the sample's bytes are appended to the queue buffer when they fit, consuming the source; when they do not fit the bulk put throws and the queue buffer is unchanged |
| MuxingSink.DefaultDataSink.constructor | lib/src/main/java/com/otaliastudios/transcoder/sink/DefaultDataSink.java:55-74 | a fresh muxer, not started, an empty queue without a queue buffer, and no status, format or muxer index |
| MuxingSink.DefaultDataSink.SetTrackStatus | lib/src/main/java/com/otaliastudios/transcoder/sink/DefaultDataSink.java:88-91 | the track's status is recorded and nothing else changes |
| MuxingSink.DefaultDataSink.SetTrackFormat | lib/src/main/java/com/otaliastudios/transcoder/sink/DefaultDataSink.java:93-103 | a compressed track whose format fails the output-format validation throws and changes nothing; a track with any other status, or none (the `require` lookup gives null, which is not `COMPRESSING`), has its format recorded, and then the muxer starts once every transcoding track has a format, as `StartIfNeeded` states, which throws a `NullPointerException` when a status is missing |
| MuxingSink.DefaultDataSink.StartIfNeeded | lib/src/main/java/com/otaliastudios/transcoder/sink/DefaultDataSink.java:105-130 | nothing happens once started; a missing status throws a `NullPointerException` (the `require` lookup gives null and `isTranscoding()` is called on it); when a transcoding track still lacks its format, nothing happens; otherwise the transcoding tracks are added, the muxer is started once and the queue is drained into it |
| MuxingSink.DefaultDataSink.AddTracks | lib/src/main/java/com/otaliastudios/transcoder/sink/DefaultDataSink.java:117-126 | the muxer's tracks are the transcoding tracks' last formats, video first, and each gets its index |
| MuxingSink.DefaultDataSink.WriteTrack | lib/src/main/java/com/otaliastudios/transcoder/sink/DefaultDataSink.java:132-139 | once started, the sample goes to the muxer under the track's index, or, when the track has none, unboxing the null lookup throws a `NullPointerException` and nothing changes; before that, the sample is queued |
| MuxingSink.DefaultDataSink.AllocateQueueBuffer | lib/src/main/java/com/otaliastudios/transcoder/sink/DefaultDataSink.java:152-154 | a 64 KiB queue buffer is allocated only when there is none |
| MuxingSink.DefaultDataSink.Enqueue | lib/src/main/java/com/otaliastudios/transcoder/sink/DefaultDataSink.java:149-159 | the sample's bytes are copied into the queue buffer and the sample's track, size, time and flags are queued; the put throws when the bytes do not fit, queuing nothing |
| MuxingSink.DefaultDataSink.DrainQueue | lib/src/main/java/com/otaliastudios/transcoder/sink/DefaultDataSink.java:165-180 | with an empty queue nothing happens; otherwise the queued samples are written in order with their own bytes, up to the first whose track has no muxer index; a full drain empties the queue and drops the queue buffer |
| MuxingSink.DefaultDataSink.WriteQueued | lib/src/main/java/com/otaliastudios/transcoder/sink/DefaultDataSink.java:172-177 | writes the queued samples in order, each with its own bytes, stopping at the first whose track has no index |
| MuxingSink.DefaultDataSink.WriteQueuedSample | lib/src/main/java/com/otaliastudios/transcoder/sink/DefaultDataSink.java:174-176 | the one queued sample is written with its own bytes under its track's index, or, when the track has none, a `NullPointerException` is thrown and the muxer is untouched |
| Wav.LittleEndianRange | lib/src/main/java/com/otaliastudios/transcoder/common/WavFile.java:207-215 | `n` bytes read little-endian give a value from 0 up to, but not including, `256^n` |
| Wav.DecodeEncode | lib/src/main/java/com/otaliastudios/transcoder/common/WavFile.java:207-215 | writing a value in range as `n` little-endian bytes and reading them back gives the value |
| Wav.EncodeDecode | lib/src/main/java/com/otaliastudios/transcoder/common/WavFile.java:207-215 | reading bytes little-endian and writing the value back gives the same bytes |
| Wav.ChunkTags | lib/src/main/java/com/otaliastudios/transcoder/common/WavFile.java:13-16 | a four-byte id equals each chunk-id constant exactly when the bytes spell "fmt ", "data", "RIFF" or "WAVE" |
| Wav.ReadBytes | lib/src/main/java/com/otaliastudios/transcoder/common/WavFile.java:84 | a stream read returns -1 at the end of the file or a count from 1 to the number asked for, and leaves a buffer of bytes |
| Wav.FormatOfValid | lib/src/main/java/com/otaliastudios/transcoder/common/WavFile.java:129-153 | a format chunk that passes validation has at least one channel, 2 to 64 valid bits, bytes per sample `(validBits + 7) / 8` and a block align of bytes per sample times channels |
| Wav.PaddedSize | lib/src/main/java/com/otaliastudios/transcoder/common/WavFile.java:122 | a chunk's size rounded up to even: the size or one more |
| Wav.FormatTurn | lib/src/main/java/com/otaliastudios/transcoder/common/WavFile.java:124-158 | reading a format chunk that passes continues the scan past it with a valid format |
| Wav.NextChunk | lib/src/main/java/com/otaliastudios/transcoder/common/WavFile.java:108-181 | each turn of the chunk scan reads a full 8-byte chunk header and moves forward, keeping the found format valid |
| Wav.FoundData | lib/src/main/java/com/otaliastudios/transcoder/common/WavFile.java:159-176 | a data chunk found in one turn starts right after a "data" header whose size is the frame count times the block align |
| Wav.ScanFindsData | lib/src/main/java/com/otaliastudios/transcoder/common/WavFile.java:108-184 | a successful scan ends at a "data" chunk after the position it began at, with a valid format, and its size is the frame count times the block align |
| Wav.ParseSound | lib/src/main/java/com/otaliastudios/transcoder/common/WavFile.java:75-205 | `Parse`, the whole of `openWavFile` on a file's bytes: an accepted file begins with "RIFF" and "WAVE", its declared size is its length minus 8, and its data chunk is a "data" header with a whole number of frames of a valid format |
| Wav.FloatScale | lib/src/main/java/com/otaliastudios/transcoder/common/WavFile.java:186-197 | corrected: the normalising scale is positive for every accepted bit width |
| Wav.ThirtyTwoBitScaleIsNegative | lib/src/main/java/com/otaliastudios/transcoder/common/WavFile.java:191 | as written (`FloatScaleAsWritten`), `1 << 31` in `int` makes the 32-bit scale `-2^31`; the corrected one is `2^31` |
| Wav.ScalesAgreeBelow32 | lib/src/main/java/com/otaliastudios/transcoder/common/WavFile.java:191 | below 32 valid bits the scale as written and the corrected one agree |
| Wav.SampleIsTwosComplement | lib/src/main/java/com/otaliastudios/transcoder/common/WavFile.java:217-236 | the corrected sample is its bytes read as a little-endian two's-complement number, with one-byte samples unsigned |
| Wav.NarrowSamplesAgree | lib/src/main/java/com/otaliastudios/transcoder/common/WavFile.java:228-230 | for samples of up to four bytes the sample as written (`SampleAsWritten`, the `int` shift) and the corrected sum agree |
| Wav.WideSampleWraps | lib/src/main/java/com/otaliastudios/transcoder/common/WavFile.java:230 | as written (`SampleAsWritten`), the fifth byte of a five-byte sample is shifted by 32 bits in `int` and lands back at bit 0: bytes 0 0 0 0 1 read as 1 instead of `2^32` |
| Wav.SamplesLength | lib/src/main/java/com/otaliastudios/transcoder/common/WavFile.java:266-274 | `Samples`, the `(int)` casts of the samples as written, gives one value for each whole sample of the bytes |
| Wav.WavFile.constructor | lib/src/main/java/com/otaliastudios/transcoder/common/WavFile.java:43-45 | a zeroed 4096-byte buffer over the file, nothing read, the stream not open |
| Wav.WavFile.ReadInto | lib/src/main/java/com/otaliastudios/transcoder/common/WavFile.java:84 | the stream read into the buffer, advancing the file position by what was read |
| Wav.WavFile.Skip | lib/src/main/java/com/otaliastudios/transcoder/common/WavFile.java:158 | skipping moves the file position forward by the count |
| Wav.WavFile.GetLE | lib/src/main/java/com/otaliastudios/transcoder/common/WavFile.java:207-215 | the loop computes the bytes' little-endian value |
| Wav.WavFile.CheckFormat | lib/src/main/java/com/otaliastudios/transcoder/common/WavFile.java:132-153 | the format checks on the buffer, storing the fields when they pass |
| Wav.WavFile.ReadFormat | lib/src/main/java/com/otaliastudios/transcoder/common/WavFile.java:129-153 | reads 16 bytes and applies the format checks to them |
| Wav.WavFile.FormatChunk | lib/src/main/java/com/otaliastudios/transcoder/common/WavFile.java:124-158 | one format-chunk turn of the scan, as its specification function says |
| Wav.WavFile.ScanTurn | lib/src/main/java/com/otaliastudios/transcoder/common/WavFile.java:109-180 | one turn of the chunk scan, as its specification function says, keeping the fields in step |
| Wav.WavFile.ReadHeader | lib/src/main/java/com/otaliastudios/transcoder/common/WavFile.java:84-102 | reads and checks the 12-byte RIFF header, as its specification function says |
| Wav.WavFile.ScanChunks | lib/src/main/java/com/otaliastudios/transcoder/common/WavFile.java:104-184 | the chunk scan loop ends as its specification function says, leaving a valid format, the frame count and the data start |
| Wav.WavFile.Open | lib/src/main/java/com/otaliastudios/transcoder/common/WavFile.java:75-205 | fails with the error parsing gives, or opens a reader at the data start, positioned at frame 0, with the parsed format, frame count and file size, and the scale as written (`FloatScaleAsWritten`: an `int` shift, negative for 32 bits) |
| Wav.WavFile.Load | lib/src/main/java/com/otaliastudios/transcoder/common/WavFile.java:83-204 | the body of `openWavFile` after the stream is opened, agreeing with the parse, with the scale `FloatScaleAsWritten` |
| Wav.WavFile.StartReading | lib/src/main/java/com/otaliastudios/transcoder/common/WavFile.java:186-202 | sets the scale as written (`FloatScaleAsWritten`) and the offset for the bit width, empties the read buffer and enters the reading state at frame 0 |
| Wav.WavFile.Refill | lib/src/main/java/com/otaliastudios/transcoder/common/WavFile.java:221-226 | refilling the empty read buffer succeeds exactly when file bytes remain, without moving the logical cursor |
| Wav.WavFile.TakeByte | lib/src/main/java/com/otaliastudios/transcoder/common/WavFile.java:228-232 | takes the byte at the cursor and moves the cursor by one |
| Wav.WavFile.NextByte | lib/src/main/java/com/otaliastudios/transcoder/common/WavFile.java:220-232 | the next file byte, refilling the buffer when needed, or end of data |
| Wav.WavFile.ReadSample | lib/src/main/java/com/otaliastudios/transcoder/common/WavFile.java:217-236 | succeeds exactly when a whole sample remains; the result is the sample as written (`SampleAsWritten`: each byte shifted as an `int`) of the next `bytesPerSample` file bytes, and the cursor moves past them |
| Wav.WavFile.ReadChannel | lib/src/main/java/com/otaliastudios/transcoder/common/WavFile.java:269-271 | reads one more sample of the frame into the next slot, so the slots read so far are `Samples` (the `(int)` cast of each sample as written) of the bytes consumed, leaving the other slots alone |
| Wav.WavFile.ReadFrame | lib/src/main/java/com/otaliastudios/transcoder/common/WavFile.java:269-273 | reads one frame's samples as written (`Samples`) into consecutive slots, succeeding exactly when a whole frame remains |
| Wav.WavFile.ReadFrameAt | lib/src/main/java/com/otaliastudios/transcoder/common/WavFile.java:266-274 | reads frame `f` into its slots, so the slots so far are `Samples` of all bytes read since the first frame |
| Wav.WavFile.FrameTurn | lib/src/main/java/com/otaliastudios/transcoder/common/WavFile.java:266-274 | one turn of the frame loop: reads a frame as written (`Samples`) and counts it, or fails only when the file is too short for the frames asked |
| Wav.WavFile.FramesRemaining | lib/src/main/java/com/otaliastudios/transcoder/common/WavFile.java:55-57 | the frames left lie between 0 and the frame count |
| Wav.WavFile.ReadFrames | lib/src/main/java/com/otaliastudios/transcoder/common/WavFile.java:259-278 | throws when not reading; otherwise reads the smaller of the requested and the remaining frames, each sample the `(int)` cast of the sample as written (`Samples`), advances the cursor and frame counter by them, and touches no other slot; it fails with end of data exactly when the file is shorter than it |
| Wav.WavFile.ReadFramesLoop | lib/src/main/java/com/otaliastudios/transcoder/common/WavFile.java:266-277 | the frame loop reads the frames in order into consecutive slots, the slots holding `Samples` of the bytes read |
| Wav.WavFile.Duration | lib/src/main/java/com/otaliastudios/transcoder/common/WavFile.java:67-69 | the duration in seconds is the frame count divided by the sample rate, rounded down; a zero sample rate throws |
| Wav.WavFile.Close | lib/src/main/java/com/otaliastudios/transcoder/common/WavFile.java:280-301 | the stream is closed and the state is CLOSED |

## Left out

- Codecs, OpenGL, files and the muxer are left out; they are Android I/O. A WAV file is its byte sequence, and `file.length()` is that sequence's length. What the sink hands to `MediaMuxer` is recorded, not written.
- Logging (`Logger`) is left out; it has no effect on state.
- `Long` overflow is not modelled in the time sums, the dropper's arithmetic or the conversions. The `Long.MAX_VALUE`/`Long.MIN_VALUE` sentinels are kept, and so is the wrap of `prev + 1` in the monotonic interpolator.
- Floating point is left out. `Timer.progress` is kept as the exact ratio of its two operands. `usToBytes` computes its ceiling in `Double`; here it is the exact integer ceiling. The WAV float scale is a `real`, and `readFrames(float[])` is not modelled.
- Termination of `Retry` chains rests on the finite step scripts. A step that answers `Retry` forever is not modelled.
- `Pipeline.kt` calls `step(previous)` without the freshness flag the step interface takes. It is modelled as written: its calls carry no flag.
- `DefaultDataSink.setOrientation`, `setLocation`, `stop` and `release` are not modelled; they only forward to the muxer. The AVC profile lookup in the output-format checks is not modelled either; it only logs.
- The `DataSources` constructors that take transcoder or thumbnailer options are not modelled. The model takes the two source lists directly.
- `BlankAudioDataSource.selectTrack`, `releaseTrack`, `getOrientation` and `getLocation` are not modelled. They are no-ops or constants. `getDurationUs` is the `durationUs` field.
- `Tracks.outputFormats` is not modelled; the strategy's output `MediaFormat` is opaque. Only the status is kept, with whether it came from the strategy.
- The calls that the EOS wrappers delegate unchanged are not modelled; only the overridden ones are.
- The writing side of `WavFile` is not part of this model (output stream, word-align byte). Neither are its plain getters.
- `MuxingSink.CheckOutputFormat` throws a typed `InvalidOutputFormatException` in Java. The model carries only a message.
- UpMixRemixer.GetRemixedSize: the contract covers sizes whose double fits in an `int`. Beyond that the body wraps as Java does, but the contract says nothing.
- Conversions.SamplesToBytes: the contract states only that the byte count is at least the sample count. The product itself is in the body.
- TimeLine.Timeline.Localize: the contract states the non-null results and the inactive case. The null results for a position outside the source, and the failure for an index outside the list, are stated by `LocalizeRoundTrip` and the body only.
- Wav.WavFile.FramesRemaining: the contract states only that the result lies between 0 and the frame count while the counter is in range.
- Wav.WavFile.Close: only the state change is modelled. The stream is a byte sequence, so there is nothing to close.
- Wav.WavFile.ReadFrames: requires the sample array to hold the frames to be read. With a shorter array Java stores the samples that fit, reads one more and then throws `ArrayIndexOutOfBoundsException` with the stream already advanced; that path is not modelled.
- Wav.WavFile.ReadFramesLoop: requires room in the array for every frame it reads, for the same reason as `ReadFrames`.
- Wav.WavFile.FrameTurn: requires room in the array for the frames still to be read, for the same reason as `ReadFrames`.
- Wav.WavFile.ReadFrameAt: requires room in the array for the frame it reads, for the same reason as `ReadFrames`.
- Wav.WavFile.ReadFrame: requires room in the array for the frame it reads, for the same reason as `ReadFrames`.
- Wav.WavFile.ReadChannel: requires a slot in the array for the sample it reads, for the same reason as `ReadFrames`.
- MonotonicTime.RunIncreasing: assumes no output reaches `Long.MAX_VALUE`. At that point `prev + 1` wraps and the order breaks, as in Kotlin.

## Findings

The model's operations follow each row's code as written. The corrected member is the evidently intended definition, with its property proved.

| source | as written | input that shows it | evidently intended | confidence | as-written member | corrected member |
|---|---|---|---|---|---|---|
| lib/src/main/java/com/otaliastudios/transcoder/internal/pipeline/Pipeline.kt:24-27 | on `Eos` the stored index is the ending step's position in the walked sub-list, so the next tick starts at that same step and feeds it its own `Eos` | chain of two steps whose first step answers `Eos` | the index moves past the ended step, in chain positions, as `CustomPipeline` does | medium, not executed | Pipelines.EndedStepReinvoked | CustomPipelines.EndedStepSkipped |
| lib/src/main/java/com/otaliastudios/transcoder/internal/audio/chunks.kt:69-73 | the requeued chunk's time is `shortsToUs(consumed)` alone, dropping the chunk's own time | a chunk at 1 s of which nothing was consumed is requeued at 0 | `timeUs + shortsToUs(consumed)` | high, not executed | Chunks.StalledChunkLosesTime | Chunks.RequeueTimeWithinChunk |
| lib/src/main/java/com/otaliastudios/transcoder/remix/DownMixAudioRemixer.java:34-41 | `a * b` overflows `int` for loud samples and only `m == 65536` is clamped | left = right = 32767 mixes to -32768 | the exact product, with `m` clamped to 65535 | high, not executed | DownMixRemixer.LoudPairWrapsAround | DownMixRemixer.LoudPairStaysLoud |
| lib/src/main/java/com/otaliastudios/transcoder/internal/DataSources.kt:33-66 | the silent replacements are created after the sources were initialized and are never initialized, so they report no audio format | an audio list with one source with audio and one without | the replacements are initialized like the other sources, so every audio source has a format | medium, not executed | SourceSelection.MixedAudioAsWrittenFails | SourceSelection.MixedAudioResolves |
| lib/src/main/java/com/otaliastudios/transcoder/common/WavFile.java:191 | `1 << (validBits - 1)` is an `int` shift, negative for 32 valid bits | a 32-bit WAV file gets scale -2147483648 | the positive `2^(validBits - 1)` (a `long` shift) | high, not executed | Wav.ThirtyTwoBitScaleIsNegative | Wav.ScalesAgreeBelow32 |
| lib/src/main/java/com/otaliastudios/transcoder/common/WavFile.java:230 | `v << (b * 8)` is an `int` shift, so bytes past the fourth wrap around | the five-byte sample 0 0 0 0 1 reads as 1 | a `long` shift: the sample's two's-complement value | high, not executed | Wav.WideSampleWraps | Wav.SampleIsTwosComplement |
