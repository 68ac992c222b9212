# Verification of mediamtx components

A Dafny 4.11 model of the parts of this media server whose correctness is decided by its own code, with proofs
about all inputs, all runs and all reachable states. `dafny verify dfyconfig.toml` checks it.

Each component has a specification on values (datatypes and functions), lemmas about it, and, where the Go code
updates fields, buffers or maps in place, classes whose methods are proved to do what the specification says.

- **RTMP chunk stream** (`RtmpChunk`, `RtmpRawMessage`, `RtmpRoundTrip`, `RtmpMessage`, `RtmpDemux`, `RtmpAck`;
  classes in `RtmpChunkIo`, `RtmpWriter`, `RtmpReader`, `RtmpMessageIo`). Two state machines per chunk stream
  compress and expand headers, sections 5.3.1 and 5.4.1 of the Adobe RTMP 1.0 specification. The main theorem says
  what the reader gets for *every* list of messages. Chunks are refused in one case only: after a type 0 chunk that
  is not the first one the writer remembers a delta that the reader has forgotten. `RefusedAfterRestart` says
  exactly when. The message stream ID is modelled as the code writes it, big-endian; the specification says
  little-endian.
- **Path** (`PathModel`, `PathInvariant`, `PathRuns`, `PathTimers`, `PathReplies`; class in `PathActor`). One event
  loop with two on-demand state machines, timers, held requests and hooks. A log records replies and hook calls; an
  automaton over the log says what a proper order is. The environment is assumed to let a timer fire only while
  armed, to let a static source and the publisher of a path alternate between ready and not ready, and to change
  only what hot reload may change.
- **Path manager** (`PathManagerModel`; class in `PathManager`). Two maps over the same paths, reload, late closes.
- **Who waits for whom** (`PathShutdown`). Manager, path, source handler and source instance as goroutines that
  meet on unbuffered channels. Nobody gets stuck, and every run is bounded by the decisions made outside.
- **fMP4 recorder** (`Mp4Time`, `RecordModel`, `RecordInvariant`, `RecordTimeline`, `RecordCuts`; classes in
  `Recorder`), with non-negative decoding times that do not decrease on a track.
- **fMP4 playback** (`PlaybackModel`, `PlaybackWindow`, `PlaybackBaseTime`; class in `Playback`), and
  `RecordedPlayback`: what the recorder writes, the seek accepts.
- **Encrypted RTMP handshake** (`HandshakeDh`, `HandshakePackets`, `Handshake`; classes in `HandshakeIo`). The hash
  is any function with 32-byte results, random draws are inputs. Assumed: the generator 2 has order q modulo p
  (section 2.1.5 of RFC 2631), and no packet of the second layout matches the first one by accident.
- **Recording names** (`RecordPath`, `RecordPathDecode`; loops in `RecordPathCodec`). The time zone is a pair of
  functions; for formats without `%s` they undo each other at the encoded time.

Five expectations a reader may have are false of the code. Each has a concrete input that shows it, and the exact
condition under which it holds:

- the RTMP round trip: `RtmpMessage.BackwardConversation`; `RefusedAfterRestart`;
- a timer for every request held for an on-demand publisher: `PathTimers.HeldWithoutTimerHappens` and
  `HeldAfterCloseTimer`; `GuardedUnlessStranded` at an event, `LifeIsGuarded` over a run;
- an own path for every plain configuration: `PathManagerModel.ShadowedRun`; `ReloadedIsOwn`, `StepKeepsAllOwn`;
- a cut at every random access point late enough: `RecordTimeline.LateVideoMissesCut`; `CutUnlessDropped` at a
  sample, `RecordCuts.SegmentsFollowCuts` over a run;
- the base time of the first sample in a playback window: `PlaybackBaseTime.BaseTimeOfSecondSample`;
  `BaseTimesOfSeek`.

## Model

| member | source | states |
|---|---|---|
| `RtmpChunk.Parse0Marshal` | internal/protocols/rtmp/chunk/chunk0.go:21-99 | reading a marshalled type 0 chunk, whatever follows it, gives the chunk back and leaves exactly what follows; the extended timestamp is present exactly when the 24-bit slot is full |
| `RtmpChunk.Parse1Marshal` | internal/protocols/rtmp/chunk/chunk1.go:22-91 | the same for type 1 |
| `RtmpChunk.Parse2Marshal` | internal/protocols/rtmp/chunk/chunk2.go:18-72 | the same for type 2, whose body length comes from the chunk stream |
| `RtmpChunk.Parse3Marshal` | internal/protocols/rtmp/chunk/chunk3.go:19-60 | the same for type 3, with or without the extended timestamp that is skipped |
| `RtmpChunk.Parse0Prefix` | internal/protocols/rtmp/chunk/chunk0.go:21-51 | a chunk that can be read is read the same way whatever bytes come after it |
| `RtmpChunkIo.Chunk0.Read` | internal/protocols/rtmp/chunk/chunk0.go:21-51 | the fields and the unread input are those of the parser; a short read is an error |
| `RtmpChunkIo.Chunk0.Marshal` | internal/protocols/rtmp/chunk/chunk0.go:53-99 | the buffer filled by index is the marshalled form |
| `RtmpChunkIo.Chunk1.Read` | internal/protocols/rtmp/chunk/chunk1.go:22-51 | the fields and the unread input are those of the parser; a short read is an error |
| `RtmpChunkIo.Chunk1.Marshal` | internal/protocols/rtmp/chunk/chunk1.go:53-91 | the buffer filled by index is the marshalled form |
| `RtmpChunkIo.Chunk2.Read` | internal/protocols/rtmp/chunk/chunk2.go:18-40 | the fields and the unread input are those of the parser, for the body length the caller knows from before |
| `RtmpChunkIo.Chunk2.Marshal` | internal/protocols/rtmp/chunk/chunk2.go:42-72 | the buffer filled by index is the marshalled form |
| `RtmpChunkIo.Chunk3.Read` | internal/protocols/rtmp/chunk/chunk3.go:19-38 | the body and the unread input are those of the parser; four bytes are skipped exactly when the chunk stream has an extended timestamp |
| `RtmpChunkIo.Chunk3.Marshal` | internal/protocols/rtmp/chunk/chunk3.go:40-60 | the buffer filled by index is the marshalled form, with four zero bytes for the extended timestamp exactly when there is one |
| `RtmpRawMessage.Pieces` | internal/protocols/rtmp/rawmessage/writer.go:65-69 | the pieces of a body put together are the body, the first one as long as the chunk size allows |
| `RtmpRawMessage.StepStreamValid` | internal/protocols/rtmp/rawmessage/reader.go:67-240 | for any bytes: fragments add up to the received count, which stays within the declared length and 10 MiB; a delivered body has exactly the declared length |
| `RtmpRawMessage.Read` | internal/protocols/rtmp/rawmessage/reader.go:290-324 | for any bytes the loop ends: every iteration consumes at least one byte, and a message leaves every chunk stream valid |
| `RtmpRoundTrip.ReaderAfterInStep` | internal/protocols/rtmp/rawmessage/writer.go:52-143 | a first chunk that is not refused takes both state machines of its chunk stream from one matching pair of states to the next, across wrap-around of the 32-bit timestamp |
| `RtmpRoundTrip.MessageAssembles` | internal/protocols/rtmp/rawmessage/writer.go:65-154 | the chunks of any message of up to 10 MiB, read by a matching reader stream, deliver that message at the last chunk and nothing before |
| `RtmpRoundTrip.StepStreamPrefix` | internal/protocols/rtmp/rawmessage/reader.go:67-240 | the outcome of reading a chunk does not depend on the bytes after it |
| `RtmpRoundTrip.AssembledIsRead` | internal/protocols/rtmp/rawmessage/reader.go:290-324 | the loop of Read over those bytes returns that message and stops right behind it |
| `RtmpRoundTrip.RefusedIsStuck` | internal/protocols/rtmp/rawmessage/reader.go:210-212 | a message that starts with a type 3 chunk on a stream without a delta stops the reader with an error |
| `RtmpMessage.MessageGoesThrough` | internal/protocols/rtmp/message/writer.go:32-52 | one message the layer can take goes through, the chunk size of both ends changing after a SetChunkSize |
| `RtmpMessage.TroubledMessageStops` | internal/protocols/rtmp/message/reader.go:11-158 | one it cannot take - a type or user control code that is not known, a body too short to tell, an unknown codec or extended type, one its decoder refuses, a chunk size above 10 MiB - arrives and stops the reader with that error |
| `RtmpMessage.Conversation` | internal/protocols/rtmp/rawmessage/reader.go:67-240 | for every list of messages and every decoder of the bodies, chunk sizes changing anywhere: the reader gets exactly the messages before the first that is refused or cannot be taken, with both chunk sizes equal after each, and then its error or the end of the input |
| `RtmpMessage.OrderedConversation` | internal/protocols/rtmp/rawmessage/writer.go:46-155 | when time does not go backwards and the message stream does not change on a chunk stream, everything written is read back, in order, up to the first message the layer cannot take, and all of it when there is none |
| `RtmpMessage.InOrderIsNeverRefused` | internal/protocols/rtmp/rawmessage/writer.go:74-130 | in that case no message is ever refused: only one the layer cannot take stops the reader |
| `RtmpMessage.RefusedAfterRestart` | internal/protocols/rtmp/rawmessage/writer.go:135-138 | right after a later type 0 chunk the next message is refused if and only if it repeats message stream, type and length and moves on by the delta the writer still remembers |
| `RtmpMessage.BackwardConversation` | internal/protocols/rtmp/rawmessage/reader.go:83 | messages at 0, 10, 5 and 15 ms: with any decoder that takes them the reader delivers three and refuses the fourth |
| `RtmpMessage.BackwardTimestampIsRefused` | internal/protocols/rtmp/rawmessage/writer.go:59-62 | the chunk types of those four messages: 0, 2, 0 and 3 |
| `RtmpDemux.Demultiplex` | internal/protocols/rtmp/rawmessage/reader.go:290-324 | a mix of chunks is readable if and only if each chunk stream alone is, and then gives on each the messages that stream alone gives |
| `RtmpDemux.RunIsRead` | internal/protocols/rtmp/rawmessage/reader.go:290-324 | the same on bytes: Read called until it fails returns those messages and then the end of the input |
| `RtmpDemux.InterleavedWriters` | internal/protocols/rtmp/rawmessage/writer.go:65-154 | however the chunks of any number of writers on their own chunk streams are interleaved, the reader delivers on each chunk stream what was sent there |
| `RtmpWriter.WriterChunkStream.WriteMessage` | internal/protocols/rtmp/rawmessage/writer.go:46-155 | the loop over the body writes the chunks of the specification and leaves its state |
| `RtmpWriter.Writer.Write` | internal/protocols/rtmp/rawmessage/writer.go:199-207 | the output grows by the chunks of the message; only its chunk stream moves on |
| `RtmpReader.JoinFragments` | internal/protocols/rtmp/rawmessage/reader.go:20-27 | the copied buffer is the fragments put together, cut or filled to the size |
| `RtmpReader.ReaderChunkStream.ReadMessage` | internal/protocols/rtmp/rawmessage/reader.go:67-240 | for any input each of the four branches leaves the fields, the unread bytes and the message, or the error, of the step that MessageAssembles and StepStreamValid are about |
| `RtmpReader.Reader.Read` | internal/protocols/rtmp/rawmessage/reader.go:290-324 | message, chunk streams and unread input are those of the specification |
| `RtmpReader.Reader.SetChunkSize` | internal/protocols/rtmp/rawmessage/reader.go:275-282 | a chunk size above 10 MiB is refused and changes nothing |
| `RtmpMessageIo.SetChunkSize.Marshal` | internal/protocols/rtmp/message/set_chunk_size.go:30-43 | the body is the value, big-endian |
| `RtmpMessageIo.SetChunkSize.Unmarshal` | internal/protocols/rtmp/message/set_chunk_size.go:15-27 | the wrong chunk stream or length is refused, anything else gives the value |
| `RtmpMessageIo.Writer.Write` | internal/protocols/rtmp/message/writer.go:32-52 | the output is that of the specification, and the chunk size changes after the message |
| `RtmpMessageIo.Reader.Read` | internal/protocols/rtmp/message/reader.go:130-158 | for any input and any decoder of the bodies the message, or the error, is that of the specification, and the chunk size changes after it |
| `RtmpAck.AckCounter.Check` | internal/protocols/rtmp/rawmessage/reader.go:49-62 | the wrapped 32-bit counters decide what the true counts would decide |
| `RtmpAck.WrappedLag` | internal/protocols/rtmp/rawmessage/reader.go:51-52 | the 32-bit difference is the true lag if and only if the lag is below 2^32 |
| `RtmpAck.LagStaysWithinWindow` | internal/protocols/rtmp/rawmessage/reader.go:43-65 | on runs of any length, with at most a window of new bytes between checks, the true acknowledged count never exceeds the received count and lags by at most the window after each check |
| `PathInvariant.StepKeeps` | internal/core/path.go:331-576 | every event keeps the invariant: timers armed exactly in their states, stream, readers, held requests and the source handler as the on-demand states say, reader count within the maximum, hooks in order; and it answers or holds exactly the request it brings |
| `PathInvariant.StaticSetReadyKeeps` | internal/core/path.go:387-403 | the same for a static source that becomes ready and releases the held requests |
| `PathInvariant.StartPublisherKeeps` | internal/core/path.go:500-525 | the same for a publisher that starts |
| `PathInvariant.RemovePublisherKeeps` | internal/core/path.go:468-473 | the same for a publisher that leaves, with the on-demand state left as it is |
| `PathInvariant.AddReaderKeeps` | internal/core/path.go:534-557 | the same for a reader that is added, held or refused |
| `PathInvariant.DescribeKeeps` | internal/core/path.go:417-466 | the same for a describe request |
| `PathInvariant.AddReadersKeeps` | internal/core/path.go:758-762 | the same for the held readers, one after the other |
| `PathRuns.ReachableKeeps` | internal/core/path.go:245-329 | over every legal run from the start: the invariant holds, and every accepted request is answered once or held once |
| `PathRuns.FinishSettles` | internal/core/path.go:200-242 | when the loop returns, in any reachable state: all held requests are answered, hooks are balanced, timers, handler, stream and recording are off |
| `PathRuns.WholeLife` | internal/core/path.go:165-243 | over a whole life: exactly one reply for each request, on-demand and ready hooks alternate and are balanced with pathReady and pathNotReady, and no call panics |
| `PathRuns.ProperHasNoPanic` | internal/core/static_source_handler.go:122-154 | a proper log has none of the two panics of the source handler, nor a call of an unset hook |
| `PathRuns.InUseBecomesIdleOnlyWhereChecked` | internal/core/path.go:245-329 | no event turns a path in use into an idle one without the loop returning at that event |
| `PathRuns.ReadyTwiceBreaksOrder` | internal/core/path.go:719-749 | becoming ready calls the hooks in order if and only if the path was not ready: a source that skips SetNotReady breaks it |
| `PathTimers.GuardedUnlessStranded` | internal/core/path.go:416-466 | as long as everyone held for an on-demand publisher has the ready timer running, an event keeps it so if and only if it is not a describe or read request that finds no stream while the on-demand state is ready or closing |
| `PathTimers.StrandedUntilRescued` | internal/core/path.go:500-525 | once somebody is held without that timer, an event ends it if and only if the publisher of the path becomes ready at it, or it is a request while the on-demand state is initial |
| `PathTimers.LifeIsGuarded` | internal/core/path.go:245-329 | over every run from the start: everyone held has the timer in every state if and only if no such request is in the run |
| `PathTimers.HeldWithoutTimerHappens` | internal/core/path.go:832-838 | a legal run to such a request: published on demand, read, left, requested again - held, and no timer runs |
| `PathTimers.HeldAfterCloseTimer` | internal/core/path.go:364-366 | another: left while closing, requested again, and the close timer fires - still held, the state initial, no timer |
| `PathReplies.RepliesAreTruthful` | internal/core/path.go:416-466 | at any event every reply is true: a stream that is handed out is the one the path has then, nobody publishing is said only without a stream and without an on-demand source or fallback, the maximum only when it is reached, the timeout only by its timer |
| `PathReplies.LifeIsTruthful` | internal/core/path.go:165-243 | the same over a whole life; the replies after the loop all say that the path has terminated |
| `PathActor.StaticSourceHandler.Start` | internal/core/static_source_handler.go:122-140 | needs that the handler is not running, which is where the code panics; all callers are proved to meet it |
| `PathActor.StaticSourceHandler.Stop` | internal/core/static_source_handler.go:142-154 | needs that the handler is running, which is where the code panics; all callers are proved to meet it |
| `PathActor.Path.HandleEvent` | internal/core/path.go:245-329 | each of the fourteen handlers, as it updates the fields, makes the step of the specification, and its preconditions - the handler is not running, is running, the hook is set - follow from the invariant |
| `PathActor.Path.ConsumeOnHoldRequests` | internal/core/path.go:751-763 | both loops answer the held requests in order and empty the lists |
| `PathActor.Path.AddReaderPost` | internal/core/path.go:840-874 | a reader joins, was there already, or meets the maximum |
| `PathActor.Path.RunInner` | internal/core/path.go:245-329 | the loop over any legal events reaches the state of the run, and stops early only when the path is not in use |
| `PathActor.Path.Run` | internal/core/path.go:165-243 | a whole life in place: the state at the end is the one WholeLife speaks about |
| `PathManagerModel.CloseKeepsInv` | internal/core/path_manager.go:212-217 | closing keeps the two maps in agreement and takes out at most the path it names; a late close of a replaced path changes nothing |
| `PathManagerModel.CloseKeepsAllLive` | internal/core/path_manager.go:212-217 | after a close some plain configuration has no path if and only if the closed path served the name of one |
| `PathManagerModel.AccessKeepsInv` | internal/core/path_manager.go:248-316 | describe, add-reader and add-publisher find or create the path of the name and disturb no other |
| `PathManagerModel.RemovePathAgrees` | internal/core/path_manager.go:370-376 | removing a live path keeps the maps in agreement, without an empty bucket |
| `PathManagerModel.CreatePathAgrees` | internal/core/path_manager.go:338-368 | creating a path keeps the maps in agreement |
| `PathManagerModel.UnderwayIfUpdated` | internal/core/path_manager.go:176-179 | in the middle of a reload, telling the paths of a configuration about its new version |
| `PathManagerModel.UnderwayIfClosed` | internal/core/path_manager.go:180-194 | in the middle of a reload, removing the paths of a configuration |
| `PathManagerModel.ReloadedIsLive` | internal/core/path_manager.go:171-206 | after a reload every plain configuration has a live path and no path of a dropped one is left |
| `PathManagerModel.ReloadedIsOwn` | internal/core/path_manager.go:201-205 | that path belongs to the configuration of its name if and only if no surviving path of another one had the name already |
| `PathManagerModel.StepKeepsAllOwn` | internal/core/path_manager.go:124-169 | with paths that close themselves only under a regular expression, every plain configuration keeps its own live path at an event if and only if the event is not such a reload |
| `PathManagerModel.RunKeepsAllOwn` | internal/core/path_manager.go:124-169 | the same over any run |
| `PathManagerModel.ShadowedRun` | internal/core/path_manager.go:171-217 | a run of three events after which a plain configuration has no path: a request makes a path under a regular expression, a reload adds a plain configuration of the same name, the path closes |
| `PathManager.Manager.constructor` | internal/core/path_manager.go:82-111 | the start: maps in agreement, one path for each plain configuration and no other |
| `PathManager.Manager.CreatePath` | internal/core/path_manager.go:338-368 | both maps gain the new path under its two names, and its identity has not been used before |
| `PathManager.Manager.RemovePath` | internal/core/path_manager.go:370-376 | both maps lose the path, and the bucket of its configuration goes when it was the last one in it |
| `PathManager.Manager.DoClosePath` | internal/core/path_manager.go:212-217 | the invariant is kept, and a path that is not the one filed under its name is left alone |
| `PathManager.Manager.DoAccess` | internal/core/path_manager.go:248-316 | the path of the name, found or created |
| `PathManager.Manager.CloseConf` | internal/core/path_manager.go:180-194 | exactly the live paths of the configuration are removed, closed and waited for |
| `PathManager.Manager.DoReloadConf` | internal/core/path_manager.go:171-206 | keeps the invariant; the closed paths are exactly those of deleted or too different configurations; the survivors stay; one new path for each plain name without one |
| `PathManager.Manager.Run` | internal/core/path_manager.go:124-169 | any events in any order: the invariant holds and each step is that of the specification |
| `PathShutdown.StepKeepsInv` | internal/core/path.go:202-242 | every step of path, source handler and source instance keeps: an awaiting instance is owed exactly one answer, and a stop happens once, while the source runs |
| `PathShutdown.ProgressIsEnabled` | internal/core/path_manager.go:386-411 | a busy path is blocked if and only if it has something to tell a manager that does not listen and its context is not done; otherwise it, or the source it waits for, has a step |
| `PathShutdown.StepDoesWork` | internal/core/static_source_handler.go:142-224 | every step of anyone takes one off a measure of the work left, except what a decision from outside adds: an event, a start or retry of the source, an announced stream |
| `PathShutdown.ToldToCloseEnds` | internal/core/path.go:148-154 | a path that was told to close: on every run it has no more steps than the decisions in it allow, and where no step is left but a decision it has ended - whether the manager listens or not |
| `PathShutdown.HandlersEnd` | internal/core/static_source_handler.go:239-264 | while the manager listens the same holds of every handler: on every run it gets to its end |
| `PathShutdown.MoveKeepsInv` | internal/core/path_manager.go:171-206 | every move of any number of paths and the manager keeps the invariants of all of them, and the path the manager waits for has been told to close |
| `PathShutdown.ReachableKeepsInv` | internal/core/path.go:119-146 | so every state that any number of new paths and their manager can reach meets them |
| `PathShutdown.WaitingEnds` | internal/core/path_manager.go:171-206 | on every run of all the paths while the manager waits: the path waited for has no more steps than its decisions allow, and where it has none left but decisions the manager can go on |
| `Mp4Time.ScaleIsFloor` | internal/record/format_fmp4.go:27-32 | the conversion is the quotient rounded down |
| `Mp4Time.NoOverflow` | internal/record/format_fmp4.go:27-32 | no intermediate value leaves 64 bits |
| `Mp4Time.TicksAdd` | internal/record/format_fmp4.go:27-32 | converting a sum differs from summing conversions by at most one tick, upwards |
| `Mp4Time.TicksRoundTrip` | internal/playback/fmp4.go:20-32 | ticks converted to nanoseconds and back are the same when they are a whole number of nanoseconds, and one less otherwise |
| `RecordModel.SegmentRecordOf` | internal/record/format_fmp4_segment.go:69-96 | recording adds the sample at the end of its track in the segment and touches no other track |
| `RecordInvariant.DropKeeps` | internal/record/format_fmp4_track.go:34-36 | a dropped sample leaves files, timelines and numbers as they are, and is accounted for as dropped |
| `RecordInvariant.KeepKeeps` | internal/record/format_fmp4_track.go:38-41 | a recorded sample extends the files, the timeline of its track and, with a new part, the numbers by exactly one |
| `RecordInvariant.CutKeeps` | internal/record/format_fmp4_track.go:43-57 | a cut moves the open segment to the files without changing what is stored, in which order, or how parts are numbered |
| `RecordInvariant.PushKeeps` | internal/record/format_fmp4_track.go:14-60 | every push keeps: samples conserved, timelines unbroken, parts numbered |
| `RecordInvariant.RecordingConserves` | internal/record/format_fmp4_track.go:14-60 | over a whole recording with any tracks: the files hold the pushed samples that were not dropped, in push order, each once and lasting until the next one pushed; dropped ones started before the open segment; only the last is missing; parts are numbered 0, 1, 2, ... in 32 bits; no file is empty |
| `RecordTimeline.DriftIsBounded` | internal/record/format_fmp4_part.go:84-98 | in a part a track never overruns its next sample, and falls behind by at most one tick a sample if and only if no gap is wider than 32 bits |
| `RecordTimeline.PartsDoNotOverlap` | internal/record/format_fmp4_segment.go:69-96 | in a segment a part of a track ends before any later one begins |
| `RecordTimeline.FirstOffsetIsZero` | internal/record/format_fmp4_part.go:84-92 | a segment that starts at a sample of a track gives it the offset 0 |
| `RecordTimeline.VideoCutsExactly` | internal/record/format_fmp4_track.go:43-57 | once a segment starts with video, the video track cuts it if and only if the new sample is a random access point at least a segment duration after the start, and the next segment starts with it |
| `RecordTimeline.FilesStartWithVideo` | internal/record/format_fmp4_track.go:43-57 | over any run from there on, whatever the other tracks do, each file made starts with its video sample |
| `RecordTimeline.LeadBegins` | internal/record/format_fmp4_track.go:26-33 | that state begins when video opens the first segment, or cuts one |
| `RecordTimeline.CutUnlessDropped` | internal/record/format_fmp4_track.go:34-45 | in a segment another track opened, video cuts at such a point if and only if the sample before it was not dropped |
| `RecordTimeline.LateVideoMissesCut` | internal/record/format_fmp4_track.go:34-36 | a legal run in which such a point does not cut |
| `RecordCuts.OthersNeverCut` | internal/record/format_fmp4_track.go:43-45 | once the video track has been seen no other track ever cuts, whichever track opened the segment |
| `RecordCuts.VideoCutsOpen` | internal/record/format_fmp4_track.go:34-57 | there video cuts if and only if the sample is a random access point late enough and the sample before it is recorded and not dropped; the next segment starts with it |
| `RecordCuts.SegmentsFollowCuts` | internal/record/format_fmp4_track.go:34-57 | over any run, whichever track opened the segment: the starts of the segments are decided by the video samples alone |
| `RecordCuts.SegmentsFollowVideo` | internal/record/format_fmp4_track.go:43-57 | once a segment starts with video they are those a reader of the video samples alone would choose greedily |
| `Recorder.PartWriter.Record` | internal/record/format_fmp4_part.go:84-98 | the sample is the last one of its track; a track that was not in the part gets the base time of this sample |
| `Recorder.SegmentWriter.Record` | internal/record/format_fmp4_segment.go:69-96 | the sample goes into the current part, or into a new one with the next sequence number when that is long enough |
| `Recorder.SegmentWriter.Close` | internal/record/format_fmp4_segment.go:47-67 | the part being filled is the last one in the file, and no part is lost |
| `Recorder.Track.Record` | internal/record/format_fmp4_track.go:14-60 | fields of track, format, segment and part after a push are those of the specification, and keep the invariant |
| `Recorder.Format.Close` | internal/record/format_fmp4.go:851-855 | the open segment becomes the last file if it has a part, nothing recorded is lost, and the invariant is kept |
| `PlaybackModel.First` | internal/playback/fmp4.go:182 | every earlier sample is before the window, this one is not |
| `PlaybackModel.LastSync` | internal/playback/fmp4.go:174-180 | no random access point lies between it and the given sample |
| `PlaybackModel.WindowBegins` | internal/playback/fmp4.go:182-201 | the window begins with the samples since the last random access point, muted |
| `PlaybackModel.WindowGrows` | internal/playback/fmp4.go:200 | after that, samples are added as they come |
| `PlaybackWindow.RunIsTracked` | internal/playback/fmp4.go:150-204 | a trun gives of its track exactly what the window over the samples seen so far adds, and stops at the end of the window |
| `PlaybackWindow.WrittenIsWindow` | internal/playback/fmp4.go:106-241 | for any file with any tracks, what is written of a track is the window over the parts before the first one with a track that starts at the end of the window or later |
| `PlaybackWindow.SeekGivesWanted` | internal/playback/fmp4.go:86-250 | for one track whose parts do not overlap: exactly the run from the last random access point at or before the first sample in the window to the last sample before its end, exactly those before the window with duration 0; the returned time is the end of the last one; it fails if and only if no sample is in the window |
| `PlaybackWindow.BaseTimeIsOfLast` | internal/playback/fmp4.go:151-184 | in a trun of any traf, after any others: the base time is that of its last sample in the window, and that of the first if and only if both start together |
| `PlaybackBaseTime.BaseTimesOfSeek` | internal/playback/fmp4.go:86-250 | the same of every part a seek writes, for one track whose parts do not overlap: which parts are written, and the base time of each - that of its first sample in the window if and only if the last one starts together with it |
| `PlaybackBaseTime.BaseTimeOfSecondSample` | internal/playback/fmp4.go:151-184 | a file of two samples, at 0 and 10, whole in the window: the base time written is 10 |
| `Playback.Seeker.Entry` | internal/playback/fmp4.go:153-204 | kept samples, written samples and time move on as in the scan whose result is the window |
| `Playback.Seeker.OnTraf` | internal/playback/fmp4.go:116-210 | the loop over the entries with its break does what the scan does, and a track that starts too late ends everything |
| `Playback.Seeker.OnMdat` | internal/playback/fmp4.go:212-235 | a part with a track is written whole, and one without is not |
| `Playback.SeekAndMuxParts` | internal/playback/fmp4.go:86-250 | the scan over the whole file returns what the specification says |
| `RecordedPlayback.RecordedIsSeekable` | internal/record/format_fmp4_segment.go:69-96 | a track of any recorded segment meets what the seek needs: no empty part and no overlap |
| `HandshakeDh.PaddedRoundTrip` | internal/protocols/rtmp/handshake/dh.go:104-106 | a number below p is 128 bytes long when padded and reads back as itself |
| `HandshakeDh.GeneratedKeyIsValid` | internal/protocols/rtmp/handshake/dh.go:54-109 | a generated public key passes the check if and only if it is at least 2 |
| `HandshakeDh.SecretsAgree` | internal/protocols/rtmp/handshake/dh.go:112-129 | both sides compute the same secret, 128 bytes long |
| `HandshakePackets.RegionsAreApart` | internal/protocols/rtmp/handshake/c1s1.go:12-24 | in both layouts, wherever the pointers lead, pointers, digest and public key lie inside the packet and do not touch |
| `HandshakePackets.FilledContents` | internal/protocols/rtmp/handshake/c1s1.go:144-171 | digest and key are found again where the pointers lead |
| `HandshakePackets.FilledIsAccepted` | internal/protocols/rtmp/handshake/c1s1.go:100-122 | a filled packet is accepted with its own digest and key, except when one of the second layout matches the first by accident |
| `HandshakePackets.FilledC2S2IsAccepted` | internal/protocols/rtmp/handshake/c2s2.go:71-97 | an answer is accepted if and only if the hash does not tell the two digests apart |
| `Handshake.HelloIsAnswered` | internal/protocols/rtmp/handshake/handshake.go:160-213 | the server accepts the hello of a client if and only if its key is good |
| `Handshake.ReplyIsAnswered` | internal/protocols/rtmp/handshake/handshake.go:40-86 | the client accepts the reply if and only if the key of the server is good |
| `Handshake.HandshakeCompletes` | internal/protocols/rtmp/handshake/handshake.go:14-92 | the handshake completes on both sides, leaving nothing unread, if and only if both keys are at least 2; then keyIn of one side is keyOut of the other |
| `HandshakeIo.C1S1Packet.ComputeDigest` | internal/protocols/rtmp/handshake/c1s1.go:80-98 | the hash is taken over header and block without the 32 bytes of the digest, whatever these are |
| `HandshakeIo.C1S1Packet.Fill` | internal/protocols/rtmp/handshake/c1s1.go:144-171 | the buffer ends as the packet that FilledContents is about |
| `HandshakeIo.C1S1Packet.Validate` | internal/protocols/rtmp/handshake/c1s1.go:100-136 | digest and key come from the first layout that matches, the first one tried first; no match and a bad key are different errors |
| `HandshakeIo.C1S1Packet.Write` | internal/protocols/rtmp/handshake/c1s1.go:174-189 | the 1536 bytes that Read turns back into the packet |
| `HandshakeIo.C2S2Packet.Fill` | internal/protocols/rtmp/handshake/c2s2.go:88-97 | the buffer ends as the packet that FilledC2S2IsAccepted is about |
| `HandshakeIo.C2S2Packet.Validate` | internal/protocols/rtmp/handshake/c2s2.go:71-80 | true if and only if the last 32 bytes are the digest for the packet that is answered |
| `HandshakeIo.ServerReply` | internal/protocols/rtmp/handshake/handshake.go:160-213 | on any input the outcome, the bytes sent and the bytes left unread are those that HelloIsAnswered is about |
| `HandshakeIo.ClientFinish` | internal/protocols/rtmp/handshake/handshake.go:40-92 | on any input the outcome, the bytes sent and the bytes left unread are those that ReplyIsAnswered is about |
| `HandshakeIo.ServerFinish` | internal/protocols/rtmp/handshake/handshake.go:213-231 | on any input the outcome is the one HandshakeCompletes is about: keys after a good answer, an error otherwise |
| `RecordPath.ChainIsOnePass` | internal/record/path.go:96-104 | a chain of replacements of the fields gives what one pass from left to right gives, for any values without percent signs that do not begin with a field letter |
| `RecordPath.EncodeIsOnePass` | internal/record/path.go:196-206 | so does Encode, for every format and time |
| `RecordPath.EscapeChainIsOnePass` | internal/record/path.go:72-92 | escaping one special character after the other escapes each exactly once |
| `RecordPath.ExpressionIsOnePass` | internal/record/path.go:70-104 | the regular expression is the escaped format with each field replaced by its group |
| `RecordPath.LeadingZerosRoundTrip` | internal/record/path.go:12-24 | a number of at most the given digits takes exactly that many and reads back |
| `RecordPathDecode.CompiledGroups` | internal/record/path.go:107-135 | there are as many groups as fields in the mapping |
| `RecordPathDecode.EncodedIsFound` | internal/record/path.go:70-141 | the match in an encoded name starts at its beginning and its groups are the encoded values |
| `RecordPathDecode.RoundTrip` | internal/record/path.go:69-206 | decoding an encoded name gives the time back: to the second with %s, in any time zone, to the microsecond with date and time of day where the zone undoes itself |
| `RecordPathCodec.LeadingZerosOf` | internal/record/path.go:12-24 | the padded number that LeadingZerosRoundTrip reads back |
| `RecordPathCodec.MappingOf` | internal/record/path.go:107-135 | the fields of the format in order, which are as many as the groups of the expression |
| `RecordPathCodec.ValuesOf` | internal/record/path.go:137-141 | every field that has a group is mapped to its last one, and no other field is mapped |
| `RecordPathCodec.EncodePath` | internal/record/path.go:196-206 | the eight replacements in the order of the code give the text made in one pass |
| `RecordPathCodec.DecodePath` | internal/record/path.go:69-193 | the time that RoundTrip says is the encoded one, or no match |

## Left out

- Extended chunk stream IDs: the reader refuses them, as in the model; the writer is given IDs from 2 to 63.
- A chunk size of 0: the writer would loop forever, so every write requires a positive one.
- The acknowledgement callback, and the writer's check of the acknowledge value: errors they return are not modelled.
- RtmpAck.LagStaysWithinWindow: twice the window is below 2^32; wider windows are not covered.
- Other message codecs (audio, video, user control, AMF commands): after allocateMessage their decoders are any predicate on the raw message, and what they take stays raw.
- Reader objects after an error: nothing is promised about them, because a connection ends there.
- Replies to publishers, and the order in which readers are closed: not part of the log.
- Sources that skip SetNotReady, such as the SRT one: covered only by PathRuns.ReadyTwiceBreaksOrder.
- Hot reload of a path: its effect on recording; the settings of the Raspberry Pi camera are one opaque value.
- PathManagerModel.UnderwayIfUpdated: notifications run in goroutines of their own; the model logs them as sent when the reload starts them, not in the order in which they arrive.
- PathActor.StaticSourceHandler.Start: only the running flag and the log; the context and the goroutine are in PathShutdown.
- PathActor.StaticSourceHandler.Stop: only the running flag and the log; waiting for the done channel is in PathShutdown.
- PathShutdown.WaitingEnds: the path waited for has to be given no events, and its source to make no retries, without end; a source instance is taken to return once its context is done.
- Replies of a path to readers and describers in PathShutdown: they always wait for theirs, so such a reply never blocks.
- File creation and file errors in the recorder, and updates of codec parameters: not modelled.
- Negative decoding times: the recorder converts them through unsigned integers.
- Truncated or malformed files, and a traf with more than one trun: the playback model reads complete boxes.
- Playback.SeekAndMuxParts: the conversion of the elapsed time to a signed 64-bit duration does not wrap in the model.
- fmp4MuxParts and fmp4Duration: they only shift base times and add up durations.
- The plain RTMP handshake: it only compares an echo.
- Handshake.HandshakeCompletes: the two sides take turns as their reads and writes force them to; the streams lose nothing.
- RecordPathDecode.RoundTrip: formats without %path, which is matched lazily; without %s, times at which the zone is not ambiguous.
- CommonPath and PathAddExtension: plain string functions.
- MPEG-TS recording, authentication, HTTP, HLS, WebRTC and SRT servers: plumbing around the modelled parts.
