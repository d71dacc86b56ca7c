# Verified model of the multi-camera capture server

The server captures YUV420 frames from several libcamera cameras, processes them
(save, batch, trigger, detect) and streams them in chunks over WebSockets to a
commander and an observer. This project models its state machines and codecs in
Dafny 4.11 and proves what they keep. `dafny verify dfyconfig.toml` checks all of
it.

How the model is cut:

- **Critical sections as functions, threads as steps.** `ProcessorMemory` and
  `Triggers` hold the state the threads of the frame processor share; each
  function is one atomic access or one lock scope. `Pipeline` strings them
  together with a program counter for each capture thread, the detection worker,
  each writer and the control thread, so that a failed or spurious
  compare-exchange, "reserved but not yet queued" and "popped but not yet
  released" are states of their own. The invariant is in `PipelineSafety`; what it
  means for runs is in `PipelineTheorems`, `PipelineProgress`, `PipelineFairness`
  and, for TRIGGER mode, `TriggerSafety`, `TriggerTheorems` and `TriggerRace`.
  `DetectorHistory` tells from the steps of a run which frames the detection worker
  takes, stores and shows, `SessionCounts` what becomes of every frame offered.
  `TriggerPool` runs both systems together, so that a frame a trigger takes goes
  through the reservation; `TriggerRoom` and `TriggerRefusals` say what that means
  for it, `TriggerOrder` in which order triggers are acknowledged. `DetectorStream`
  runs the pipeline with the sessions that read the detector's slots.
- **Objects as classes.** `FrameProcessors`, `FrameSending`, `ChunkParsing`,
  `Cameras`, `Fleets`, `WebSocketServers`, `Scheduling`, `Watchdog`,
  `Publication` and `RateControl` hold the source's classes with their fields and
  loops. Each method's `ensures` ties the new state to a function of the old one;
  the theorems are about that function.
- **Printer against parser.** `Packing` is a format-driven little-endian codec,
  `Wire` what the server prints, `ChunkParsing` what the reference client makes of
  it. `RoundTrip` relates the two message by message, `Delivery` over whole
  sessions, `Priority` adds the rule by which the observer yields. `WireLayout` puts
  every field at its documented offset, and `ClientAcceptance` is the converse of
  `RoundTrip`: what is accepted was printed.
- **Answers and their history.** `Servers` is the command dispatch, `ServerTheorems`
  what every event keeps, `ServerHistory` exactly which requests are granted and what
  the granted ones of a run have made of subscriptions, modes and settings.
- **Oracles.** libcamera, the disk, the detector, the sink, the clock and JSON
  text are arguments that may answer anything.

What turned out differently from what one would expect is stated as a theorem:

- A `configure` that fails behind the first camera leaves the cameras in front of
  it configured in a system that stays IDLE. From then on no sequence of client
  events can ever configure the system again (`ConfigurableExactly`).
- A trigger's acknowledgement says that its frames are captured, not that they
  are queued (`docs/websocket-protocol.md:513` and `:524`). It can reach the client
  while another camera's frame is still in its thread's hand: for a list of armed
  cameras that happens in some run unless saving is off or there is one camera only
  (`OvertakingExactly`, `AckCanOvertake`). And the budget can refuse a frame, the
  completing one included, while the acknowledgement goes out all the same
  (`AckWithNothingQueued`). Over everything that can happen after a trigger was
  armed, later triggers included, some run refuses one of its frames if and only if
  frames are not empty and either the budget does not hold the largest frame of each
  armed camera next to what is held already, or there is a second capture thread
  (`RefusalExactly`): the next trigger can be armed while the completing frame is
  not reserved yet, and its frames take the place (`RoomIsNotEnough`). Until another
  trigger is armed only the budget decides (`RefusalBeforeRearming`). What does hold
  is that every frame of the result is queued, refused and counted as dropped, or in
  a hand, and that the last one is queued or refused (`CapturesAccounted`).
- Acknowledgements can come out of order, because the slot of the pending trigger is
  free again before its callback runs. They come in order in every run if and only
  if at most one thread captures (`OrderExactly`), and for a client that arms only
  after the acknowledgement before with any number of threads (`WaitingKeepsOrder`).
- A trigger is accepted whenever the configured mode is TRIGGER and the processor
  takes frames, also in a session that was started in another mode, although
  `src/websocket_server.cpp:523-525` says it is not (`TriggerAcceptedExactly`).
- Trigger ids are not reset when a session starts, as
  `docs/websocket-protocol.md:522` says they are; they count up for the life of
  the processor. The next id is 1 if and only if the number of triggers armed so
  far is 0 modulo 2^32 (`IdsIncrease`); the first trigger of a second session is
  number 2 (`SecondSessionGoesOn`).
- A writer pool without threads leaves its queue behind, and the next session's
  accounting is then wrong from the start (`QueueEmptyExactly`,
  `LeftoversBreakAccounting`); one frame in a session with `writer_threads` 0 is
  enough (`LeftoversAreReachable`).
- The watchdog can report a camera whose newest frame is within the limit, if that
  frame arrived while it was being judged (`WrongSuspicionExactly`, `WrongReport`).
- The converter's comment that turning each quadrant equals re-tiling the turned
  frame holds for even sizes only (`RotateThenTileExactly`).
- The header-only flag outlives the connection that set it, although
  `docs/websocket-protocol.md:357` ties it to the calling connection: a new
  connection starts with the flag off if and only if the role's last
  set_header_only was off or there was none (`NewConnectionFlag`,
  `SecondClientInherits`).

## Model

| member | source | states |
|---|---|---|
| ProcessorMemory.NextCamera | src/frame_processor.cpp:474-480 | The detection worker's choice is the smallest pending id above the last one, or the smallest of all when there is none above. |
| ProcessorMemory.AcceptAppends | src/frame_processor.cpp:342-353 | Accepting a frame in a pooled mode puts it behind everything queued and batched and adds exactly its bytes, whether or not the batch is moved to the queue. |
| PipelineSafety.AdvanceConserves | src/frame_processor.cpp:276-297 | One step of the reservation loop, spurious failures included, moves bytes between counter, thread and memory without creating or losing any, and stays within the budget. |
| PipelineSafety.StepKeeps | src/frame_processor.cpp:120-353 | Every step of every thread keeps the phases, the holders, the exact byte count, the order of acceptance and the exactly-once counts. |
| PipelineSafety.RunKeeps | src/frame_processor.cpp:120-880 | So does every run, over any number of sessions. |
| PipelineTheorems.BacklogIsExact | src/frame_processor.cpp:276-317 | In every interleaving the backlog counter equals the bytes held by buffered, batched, queued, reserved-in-hand and popped-in-hand frames, and never exceeds the budget. |
| PipelineTheorems.ReleaseNeverSaturates | src/frame_processor.cpp:305-317 | Whenever a release is about to lower the counter the counter covers it, so the saturating branch never loses bytes. |
| PipelineTheorems.AcceptedInOrder | src/frame_processor.cpp:835-848 | At any moment the accepted frames are those taken, then those waiting, in acceptance order. |
| PipelineTheorems.StopLosesNothing | src/frame_processor.cpp:204-265 | After stop, with at least one writer, inbox, batch and queue are empty, every accepted frame was taken in order and finished exactly once, the counter is zero, and offered = dropped + accepted. |
| PipelineTheorems.FlushHandsOverAll | src/frame_processor.cpp:804-833 | The BUFFER flush takes every accepted frame and is left with exactly the bytes it then gives back. |
| PipelineTheorems.QueueEmptyExactly | src/frame_processor.cpp:185-188 | A stopped writer-pool session has an empty queue if and only if it had a writer or accepted nothing. |
| PipelineTheorems.LeftoversBreakAccounting | src/frame_processor.cpp:134-136 | The next session's counter is exact if and only if no bytes were left in the queue. |
| PipelineTheorems.LeftoversAreReachable | src/command_parser.cpp:217-218 | A run of a session with no writer whose stop leaves a frame in the queue, after which the next start breaks the accounting. |
| PipelineProgress.StopNeverBlocks | src/frame_processor.cpp:204-265 | While a stop is under way some step of detector, writers or the joining thread is always possible. |
| PipelineProgress.StopTerminates | src/frame_processor.cpp:204-265 | In every run of a stop the steps other than spurious compare-exchange failures, which change nothing, number at most a rank computed from the work left. |
| PipelineFairness.PickApproaches | src/frame_processor.cpp:474-480 | Each pick brings a pending camera strictly closer in cyclic order, or is that camera. |
| PipelineFairness.DetectionIsFair | src/frame_processor.cpp:460-484 | A camera that stays pending is picked within as many picks as there are camera ids. |
| PipelineFairness.NewestStaysPending | src/frame_processor.cpp:354-372 | A pending camera stays pending, with its frame, until it offers a newer one, is picked or the counts are reset. |
| DetectorHistory.PendingExactly | src/frame_processor.cpp:354-372 | In every run a camera has a frame pending exactly if it offered one to a detecting session since the last start, reset and pick of it, and then it is the last one it offered. |
| DetectorHistory.TakesNewest | src/frame_processor.cpp:354-372 | Latest wins: in every run from the beginning, the frame the worker takes of a camera is the last one that camera offered. |
| DetectorHistory.DetectionsStored | src/frame_processor.cpp:460-545 | In every run of a detector session the frames taken are those shown and the one in work, in order; the frames stored or dropped are, in the order of detection, exactly those in which something was found while saving, apart from the one in hand, and each of them was accepted or counted as dropped. |
| SessionCounts.EveryFrameCounts | src/frame_processor.cpp:319-353 | In every run each frame the session was asked to store - any frame in a saving BUFFER or BATCH session, a captured one in TRIGGER, a detection in a detector mode - is accepted, counted as dropped, or in a thread's hand. |
| SessionCounts.BatchesAreWhole | src/frame_processor.cpp:336-353 | Until the stop the writers get the accepted frames in whole batches, and exactly the frames of the unfilled batch are held back. |
| FrameProcessors.FrameProcessor.ReserveBacklog | src/frame_processor.cpp:276-303 | The compare-exchange loop ends in the reservation or the counted drop that the budget decides, however often it fails spuriously; without a budget everything fits and nothing is counted. |
| FrameProcessors.FrameProcessor.ReleaseBacklog | src/frame_processor.cpp:305-317 | Lowers the counter by the bytes, never below zero. |
| FrameProcessors.FrameProcessor.Start | src/frame_processor.cpp:120-202 | The whole state after start: budget resolved, counters, totals, slots and pending trigger reset, threads started, trigger ids, publication counter and a leftover write queue kept; the accounting is sound from there exactly if the budget has headroom and no bytes were left over. |
| FrameProcessors.FrameProcessor.SaveFrame | src/frame_processor.cpp:319-374 | What a frame does in each mode: stored if it fits and counted as dropped otherwise, pending for the detector in place of the camera's older one, or given to the trigger; nothing when saving is off. |
| FrameProcessors.FrameProcessor.ArmTrigger | src/frame_processor.cpp:376-399 | Arms a trigger over the distinct cameras with the clamped skip, or refuses without a change. |
| FrameProcessors.FrameProcessor.HandleTriggerFrame | src/frame_processor.cpp:406-458 | Counts down, captures or ignores the frame, and then reserves and pushes it; acknowledges exactly when the last camera was served, whatever the reservation said. |
| FrameProcessors.FrameProcessor.DetectNext | src/frame_processor.cpp:460-545 | One turn of the worker, field by field: the next camera's frame leaves the pending ones, is queued exactly if something was found, frames are saved and its bytes fit, counts as dropped if only the budget refuses it, and is published in any case. |
| FrameProcessors.StoredExactly | src/frame_processor.cpp:276-353 | A session that keeps frames puts one behind all it holds exactly if its bytes fit the budget, and otherwise counts one more drop. |
| FrameProcessors.DrainedStores | src/frame_processor.cpp:460-545 | What the worker stores of the pending frames before it ends: in its round, exactly those with a detection that still fit; the others with a detection are counted as dropped. |
| FrameProcessors.FrameProcessor.DrainWriteQueue | src/frame_processor.cpp:835-880 | A writer told to stop empties the queue, credits exactly the frames it could write to the totals and gives all bytes back. |
| FrameProcessors.CreditsWritten | src/frame_processor.cpp:866-869 | The totals after any frames: one file and its bytes for each frame written, and each camera's count modulo 2^32. |
| FrameProcessors.FrameProcessor.FlushBufferedFrames | src/frame_processor.cpp:804-833 | Leaves no frame and no byte behind and credits exactly the files written to the totals. |
| FrameProcessors.FrameProcessor.Stop | src/frame_processor.cpp:204-265 | The whole state after stop, also of a processor that does not run: trigger cancelled, detector drained before the writers, everything it still stored credited where the disk allows; with writers every queue is empty and the counter zero, without any the frames stay queued. |
| FrameProcessors.ToWriteIs | src/frame_processor.cpp:225-265 | What the writers still have to write when stop is called: the queue, the partial batch, and what the worker still finds and can keep. |
| FrameProcessors.FinishedSlots | src/frame_processor.cpp:225-245 | A stopped detector session has nothing pending and nothing published. |
| FrameProcessors.FrameProcessor.GetDetectedFrameForStreaming | src/frame_processor.hpp:279-292 | Hands out the camera's newest processed frame exactly if it is newer than the cursor. |
| FrameProcessors.FrameProcessor.ResetFramesSavedCounts | src/frame_processor.hpp:301-319 | Zeroes every camera's saved count, clears the pending and published detections and nothing else of the accounting. |
| TriggerSafety.HandleKeeps | src/frame_processor.cpp:412-442 | A handled frame keeps captured and waiting cameras a partition of the armed set, with each capture the (skip + 1)-th frame its camera consumed. |
| TriggerTheorems.DeliveredExactlyOnce | src/frame_processor.cpp:204-223 | No trigger is delivered twice, and once nothing is pending or in a thread's hands every armed trigger has been delivered. |
| TriggerTheorems.CapturesAsAsked | src/frame_processor.cpp:406-442 | A result names each camera once, each capture is the (skip + 1)-th frame after arming, and all armed cameras are there exactly if it was not cancelled. |
| TriggerTheorems.IdsIncrease | src/frame_processor.cpp:384-386 | In every run the ids rise strictly if and only if fewer than 2^32 triggers were armed, and the next one is 1 if and only if their number is 0 modulo 2^32. |
| TriggerTheorems.SecondSessionGoesOn | src/frame_processor.cpp:120-165 | A run of two sessions in which the second one's first trigger gets number 2. |
| TriggerTheorems.CapturesSettleOnce | src/frame_processor.cpp:444-457 | When a result is out, each of its frames that was to be saved is queued, refused or in a thread's hand, and in only one of these; its last frame is queued or refused. |
| TriggerRace.OvertakingExactly | src/frame_processor.cpp:444-457 | For a list of armed cameras, no run's acknowledgement overtakes a frame if and only if saving is off or the list names one camera. |
| TriggerRace.AckCanOvertake | src/frame_processor.cpp:444-457 | For any two or more cameras, a run whose acknowledgement is out while a frame is neither queued nor refused. |
| TriggerPool.StepKeeps | src/frame_processor.cpp:406-458 | Every step of the processor in TRIGGER mode keeps hands and reservations in step, the frames accepted equal to those queued, in order, and the dropped counter equal to the number refused, over any sessions that start with an empty write queue. |
| TriggerRefusals.CapturesAccounted | src/frame_processor.cpp:276-303 | In every run whose sessions start with an empty write queue the counter is exact, queued frames are the accepted ones, refused frames the dropped ones, and each delivered capture is in exactly one place. |
| TriggerRefusals.RefusalExactly | src/frame_processor.cpp:406-453 | Over all runs from a trigger just armed, later triggers and sessions included: one of its frames can be refused if and only if frames are not empty and there is a second capture thread or the budget is smaller than what is held plus the largest frame of each armed camera. |
| TriggerRefusals.RefusalBeforeRearming | src/frame_processor.cpp:276-303 | Over the runs that arm no further trigger: a frame can be refused if and only if the budget is too small. |
| TriggerRefusals.RoomIsNotEnough | src/frame_processor.cpp:437-444 | A run in which the budget holds the whole trigger and its frame is refused all the same, behind a later one. |
| TriggerRoom.RunSafe | src/frame_processor.cpp:276-303 | What fits keeps fitting: with room for the trigger, and one capture thread or no further trigger, no run refuses one of its frames. |
| TriggerRefusals.AckDespiteRefusal | src/frame_processor.cpp:444-457 | From any state in which the last camera's frame does not fit, a run that acknowledges the trigger with that frame refused and not queued. |
| TriggerRefusals.AckWithNothingQueued | src/frame_processor.cpp:444-457 | A run from the first start into such an acknowledgement. |
| TriggerOrder.OrderExactly | src/frame_processor.cpp:437-457 | Over all runs, acknowledgements come in the order of their triggers if and only if at most one thread captures. |
| TriggerOrder.OutOfOrder | src/frame_processor.cpp:437-457 | For any two or more capture threads, a run that acknowledges the second trigger before the first. |
| TriggerOrder.WaitingKeepsOrder | src/frame_processor.cpp:376-399 | If every trigger is armed after the acknowledgement of the one before, each is acknowledged in its turn, with any number of threads. |
| Packing.Truncates | src/types.hpp:73-138 | Printing a number into a little-endian field and reading it back keeps exactly its low bytes. |
| Packing.UnpackPack | tests/e2e/client.py:68-90 | Unpacking a packed record anywhere in a message yields the values modulo the field widths. |
| Packing.UnpackExactly | tests/e2e/client.py:68-90 | A reader takes given values off the wire if and only if they fit their fields and a printer puts them there. |
| WireLayout.HeaderAsDocumented | docs/websocket-protocol.md:590-620 | The header message, byte by byte: start marker, each of the twenty fields at its documented offset, then the detection block from byte 80 on. |
| WireLayout.RecordAsDocumented | docs/websocket-protocol.md:633-674 | A record of the block: the marker's 8 bytes or the board's 4 field by field, and each corner's two coordinates at their offsets. |
| WireLayout.RecordsBackToBack | docs/websocket-protocol.md:624-633 | Every record stands in the block right behind those before it, and the last one ends it. |
| WireLayout.DataAsDocumented | docs/websocket-protocol.md:676-688 | A data message: four fields at their offsets, then the chunk's 32768 bytes of the payload, or what is left of it. |
| FrameSending.StreamSession.SendChunkHeader | src/stream_manager.cpp:669-777 | The loops over sets and corners print exactly the specified header message and hand it over if the sink takes it. |
| FrameSending.StreamSession.CornerBlockSize | src/stream_manager.cpp:687-697 | The running 32-bit sum is the size of the printed detection block modulo 2^32. |
| FrameSending.StreamSession.SendChunkData | src/stream_manager.cpp:779-810 | Prints the chunk header and exactly that chunk's slice of the payload. |
| FrameSending.StreamSession.WaitForPriorityClear | src/stream_manager.cpp:472-480 | The polling loop makes exactly the specified checks and returns their verdict; `WaitsUntil` spells them out. |
| FrameSending.StreamSession.SendChunkedFrame | src/stream_manager.cpp:527-667 | What is checked and sent, in order, for any behaviour of the surroundings; the transfer is cleaned up on every path. |
| FrameSending.StreamSession.SendHeaderOnlyFrame | src/stream_manager.cpp:506-525 | Sends the one message of a header-only frame, or nothing. |
| ChunkParsing.ChunkClient.ParseDetectionBlock | tests/e2e/client.py:373-405 | The parsing loop yields the block's records or the first error, and accepts only a block filled exactly. |
| ChunkParsing.ChunkClient.HandleChunkStart | tests/e2e/client.py:300-370 | Delivers a header-only frame at once, opens or replaces the partial frame otherwise, and rejects every malformed header. |
| ChunkParsing.ChunkClient.HandleChunkData | tests/e2e/client.py:407-424 | Files the chunk, drops it when the frame is unknown, and delivers the joined frame when the count is complete. |
| ChunkParsing.ChunkClient.HandleBinary | tests/e2e/client.py:289-298 | Dispatches on the magic number; short and unknown messages are errors. |
| ClientAcceptance.BlockExactly | tests/e2e/client.py:373-405 | The block parser yields given sets if and only if the block is exactly their records, as many as announced, back to back, with no byte left over. |
| ClientAcceptance.HeaderExactly | tests/e2e/client.py:300-370 | A header message is accepted for a frame if and only if it is the printed message of that frame: marker, version, fields, block size and record count included. |
| ClientAcceptance.HeaderOutcome | tests/e2e/client.py:366-370 | An accepted header without chunks is delivered at once; any other opens the frame's table anew. |
| ClientAcceptance.ChunkExactly | tests/e2e/client.py:407-416 | A data message is accepted for a chunk if and only if it begins with that chunk's printed message. |
| ClientAcceptance.ChunkOutcome | tests/e2e/client.py:417-424 | A chunk delivers its frame, joined by ascending index, exactly when each announced index is then there and no other; as many chunks with a gap among them lose the frame and raise; a chunk of an unknown frame does nothing. |
| ClientAcceptance.RejectedExactly | tests/e2e/client.py:289-298 | A message raises if and only if it is neither an accepted header nor an accepted data message, or fills a table with a gap; only that last one changes anything. |
| RoundTrip.BlockParse | src/stream_manager.cpp:742-770 | The parser reads back every printed set: signed marker ids, set ids, flags and all corner bit patterns. |
| RoundTrip.HeaderRoundTrip | src/stream_manager.cpp:669-777 | The header message comes through as meant if and only if set count, corner counts, block size, chunk count and payload size fit their fields. |
| RoundTrip.ChunkRoundTrip | src/stream_manager.cpp:779-810 | Each chunk message comes through with its id, index and payload slice. |
| RoundTrip.ChunkCountCeil | src/stream_manager.cpp:539-540 | The chunk count is the payload size over 32768, rounded up. |
| RoundTrip.JoinedPayloads | tests/e2e/client.py:160-162 | The payloads of the first chunks, joined, are the start of the data. |
| Delivery.SendsPrefix | src/stream_manager.cpp:558-655 | The chunk loop sends an initial run of the chunks, all of them exactly if it returns true. |
| Delivery.AttemptArrives | src/stream_manager.cpp:527-667 | Whatever the client holds, a frame whose send succeeds arrives whole, one whose send fails does not arrive, and no message is rejected. |
| Delivery.SessionDelivers | tests/e2e/client.py:366-424 | Over any sequence of sends the client delivers exactly the successful frames, in order and unmodified, even if all frame ids collide. |
| Delivery.AnyOrder | tests/e2e/client.py:152-162 | Behind the header, chunks in any order, repeated and mixed with unknown ids, deliver the frame once and exactly if all have arrived. |
| Priority.WaitsUntil | src/stream_manager.cpp:472-480 | The wait ends at the first poll that sees a commander without stress - no sink, no payload, or no backpressure for a second and at most 512 KiB unsent - is stopped or past the deadline, and succeeds exactly if it saw none. |
| Priority.ObserverYields | src/stream_manager.cpp:597-614 | Right in front of every data chunk stands a poll, made for this chunk, whose snapshot shows no sign of stress; a poll that shows one lets no chunk through, and the first such poll past five seconds is the end of the frame. |
| Priority.SentExactly | src/stream_manager.cpp:527-667 | A frame is sent whole if and only if the sink takes the header and, for each chunk, the session is neither stopped nor unsubscribed, backpressure passes by the fiftieth look, the buffer drains, the commander is seen without stress in time, and the sink takes the chunk. |
| Planes.MeanIsRoundedAverage | src/frame_subsample.cpp:13-25 | An output sample is the sum of all samples of its block, divided by their number and rounded to nearest, and lies between the block's extremes. |
| Planes.BlockIsSum | src/frame_subsample.cpp:15-23 | The nested loops sum up every sample of the block once. |
| Planes.DecimatedAt | src/frame_subsample.cpp:15-27 | Every output position holds the mean of its own block. |
| Planes.PaddingIgnored | src/frame_subsample.cpp:11-28 | A plane's result depends on its visible samples only. |
| Subsample.PlanesIn | src/frame_subsample.cpp:60-79 | The three planes lie one behind the other inside the payload. |
| Subsample.PlanesFit | src/frame_subsample.cpp:9-10 | Every block of every output plane lies inside its source plane's visible part. |
| Subsample.DecimatePlane | src/frame_subsample.cpp:11-28 | In place: replaces exactly its part of the output by the decimated plane, for every factor up to 4100. |
| Subsample.BlockMean | src/frame_subsample.cpp:19-25 | What the 32-bit sums and the cast make of one block, for every factor whose square is not 0 in 32 bits. |
| Subsample.MeansRightExactly | src/frame_subsample.cpp:13-25 | That is the rounded mean of every block if and only if the factor is at most 4100. |
| Subsample.SubsampleYuv420 | src/frame_subsample.cpp:40-84 | The loops produce the decimated frame: metadata, geometry and, if the payload suffices, one mean for each block of the three planes; geometry alone when there is nothing to decimate. |
| Subsample.SubsampledIs | src/frame_subsample.cpp:32-84 | The specification of the decimated frame spelled out: sizes and plane positions, the rounded mean of its own block at every Y, U and V position, geometry alone exactly when a size is zero or the payload is short, the frame itself for factors up to 1. |
| SubsampleTheorems.TwiceByTwo | src/frame_subsample.cpp:32-84 | Decimating by 2 twice gives the geometry, metadata and size of decimating by 4, and every sample within one of it. |
| SubsampleTheorems.PaddingNeverShows | src/frame_subsample.cpp:60-83 | Frames that look alike decimate to the same frame, whatever is in their padding. |
| Cameras.Camera.Configure | src/camera.cpp:36-251 | Succeeds exactly when every step works out, and then holds handle, configuration, buffers and requests; every failure behind the acquisition gives back what was taken. |
| Cameras.Camera.Start | src/camera.cpp:269-347 | Runs exactly if the start and all initial requests succeed, and otherwise stops and disconnects again. |
| Cameras.Camera.Unconfigure | src/camera.cpp:374-388 | Refused while running, otherwise releases everything once. |
| Cameras.StaysConsistent | src/camera.cpp:36-418 | Every operation keeps handle, configuration, buffers and signal connection in step with the state; destruction balances acquire and release. |
| Fleets.CameraManager.ConfigureAll | src/camera_manager.cpp:61-89 | The loop with its early exit does what the fleet function says, camera by camera. |
| Fleets.CameraManager.StartAll | src/camera_manager.cpp:91-104 | Starts cameras in order and stops them all at the first failure. |
| Fleets.CameraManager.StopAll | src/camera_manager.cpp:106-118 | Stops every camera. |
| Fleets.CameraManager.UnconfigureAll | src/camera_manager.cpp:120-130 | Unconfigures every camera and reports whether all agreed. |
| Fleets.CameraManager.DiscoverCameras | src/camera_manager.cpp:16-59 | Finds cameras once; later calls return the known ones untouched. |
| Fleets.ConfigureSplits | src/camera_manager.cpp:78-88 | The first failure splits the cameras into configured ones in front and idle ones from it on. |
| Fleets.ConfigureBlocked | src/camera.cpp:37-40 | A camera that is not idle makes every later configuration fail, whatever the hardware does. |
| Fleets.StartAllOrNone | src/camera_manager.cpp:91-104 | From configured cameras, all run or none does. |
| ServerHistory.ConfigureReply | src/websocket_server.cpp:392-420 | configure succeeds if and only if the system and every camera are idle, there is a camera, and the hardware works out for each; then each is configured as asked or as adjusted, with a request for each buffer. |
| ServerHistory.LifecycleReplies | src/websocket_server.cpp:422-437 | Exactly when unconfigure, start_cameras and stop_cameras succeed, and the state they lead to. |
| ServerHistory.StartStreamReply | src/websocket_server.cpp:579-625 | start_stream succeeds if and only if the request is well-formed, its camera known and, for the commander, the system RUNNING; it touches that subscription and the sender only. |
| ServerHistory.StopStreamReply | src/websocket_server.cpp:627-645 | stop_stream succeeds if and only if the role is subscribed to the camera; it touches that subscription only. |
| ServerHistory.SubscribedExactly | src/stream_manager.cpp:77-158 | In every run a role is subscribed to a camera with given options if and only if its last granted start or stop of that camera was a start with them and neither a disconnect nor, for the commander, a stop_cameras came after. |
| ServerHistory.BookKept | src/websocket_server.cpp:439-577 | In every run the configured mode, the mode of the session, the known cameras and their lens position, exposure and frame duration are what the granted requests last made them. |
| ServerHistory.ControlReplies | src/websocket_server.cpp:731-800 | Exactly when the capture controls, the mode and the header-only flag are set; a malformed message changes nothing. |
| ServerHistory.ForbiddenExactly | src/command_parser.cpp:86-111 | Which requests an observer is forbidden, that they change nothing, and what the queries answer in each state. |
| WebSocketServers.WebSocketServer.OnMessage | src/websocket_server.cpp:114-215 | Role gate, state gate and handler together give the specified state and reply for every command, error replies included; module ServerHistory says what that specification amounts to. |
| WebSocketServers.WebSocketServer.OnConnect | src/websocket_server.cpp:66-112 | One client per role: a second one is refused without a change; an accepted one has a sink and no backpressure, keeps the role's header-only flag, and nothing outside its session changes. |
| WebSocketServers.WebSocketServer.OnDrain | src/websocket_server.cpp:217-256 | The flag rises above 512 KiB, falls at or below 128 KiB and stays in between; the sender hears of every change and of nothing else. |
| WebSocketServers.WebSocketServer.OnClose | src/websocket_server.cpp:1010-1038 | Leaves the role without subscription, sender, sink and connection; fleet, system, mode and the other session are unchanged. |
| ServerTheorems.StepKeeps | src/websocket_server.cpp:64-304 | Every event keeps the agreement of system, cameras and sessions. |
| ServerTheorems.LifecycleAgreement | src/websocket_server.cpp:392-437 | In every run: RUNNING and CONFIGURED mean all cameras are, IDLE means none runs, the processor's session and the watchdog last exactly as long as RUNNING, frames are processed only then and not in mode NONE, and acquires minus releases is 1 exactly while a camera is not idle. |
| ServerTheorems.ShutdownReleases | src/camera.cpp:31-34 | Destroying a camera in any reachable state balances acquire and release. |
| ServerTheorems.CommanderStreamsOnlyRunning | src/websocket_server.cpp:627-645 | Commander subscriptions exist only in RUNNING, so stop_stream is refused outside it although its handler has no state test. |
| ServerTheorems.TriggerAcceptedExactly | src/websocket_server.cpp:454-536 | In every reachable state a trigger on all cameras or on one is accepted if and only if the cameras run, the one it names is known, the configured mode is TRIGGER, the session was not started in mode NONE and no trigger is pending; and asking changes nothing. |
| ServerTheorems.RunningExactly | src/websocket_server.cpp:483-487 | A trigger that names no camera goes to every running one, each once, in ascending order. |
| ServerTheorems.SessionsAgree | src/stream_manager.cpp:45-158 | A connected client's two backpressure flags agree; a disconnected one has no subscription and no sender; subscriptions imply a running sender. |
| ServerTheorems.ObserverIsHarmless | src/command_parser.cpp:86-111 | No sequence of observer events changes anything but its own session and the still empty discovery cache. |
| ServerTheorems.HeaderOnlyIsLast | src/stream_manager.cpp:45-75 | A role's header-only flag is what its own set_header_only last made it, across any number of connections. |
| ServerTheorems.NewConnectionFlag | src/websocket_server.cpp:95-108 | In every run a new connection starts with the flag off if and only if the role's last set_header_only was off or there was none. |
| ServerTheorems.SecondClientInherits | src/websocket_server.cpp:95-108 | Connect, set, disconnect: the next client starts header-only. |
| ServerTheorems.HysteresisExactly | src/websocket_server.cpp:217-256 | Over everything that happens to a connection, the flag is up if and only if the last drain outside the band between the marks was above the high one. |
| ServerTheorems.PartialConfigure | src/websocket_server.cpp:405-419 | What a failing configure leaves, camera by camera, and when that is the stuck state. |
| ServerTheorems.StuckForever | src/websocket_server.cpp:392-437 | No event sequence leads out of the stuck state. |
| ServerTheorems.ConfigurableExactly | src/camera_manager.cpp:61-89 | An idle system can still reach CONFIGURED if and only if no camera was left configured. |
| ServerTheorems.StuckIsReachable | src/camera_manager.cpp:78-88 | A concrete run into the stuck state. |
| Publication.FrameSlot.GetFrameForStreaming | src/camera.cpp:684-691 | Hands out the published frame exactly if the cursor has not seen it, with the cursor's new value. |
| Publication.TakesNewestExactly | src/camera.cpp:545-556 | A consumer receives a frame exactly if something was published since the last clearing and it lacks the newest; and then it gets the newest. |
| Publication.ConsumersSeeNewestOnce | src/camera.cpp:361-367 | In every run receipts strictly increase, and nothing from before a stop is handed out after it. |
| Publication.ConsumersIndependent | src/stream_manager.cpp:131-137 | Leaving out all reads of one consumer changes nothing for any other. |
| DetectorStream.RunMirrors | src/frame_processor.cpp:535-544 | Every run of the pipeline with the sessions that read one camera's slot is a run of the single slot with its consumers. |
| DetectorStream.DetectedOnce | src/frame_processor.hpp:279-292 | In every run of the pipeline what a session receives from a camera's slot is that camera's, each frame at most once and in the order of publication. |
| DetectorStream.NothingFromBefore | src/frame_processor.cpp:236-243 | Nothing published before a stop, a start or a reset is handed out after it, whatever runs on both sides. |
| Scheduling.StreamLoop.UpdateOrder | src/stream_manager.cpp:256-270 | The index is kept while the subscriptions stay and reset when they change. |
| Scheduling.StreamLoop.Pass | src/stream_manager.cpp:308-323 | One pass looks at each camera at most once, ends with the first frame sent or when all were looked at, and leaves the index behind the last one looked at. |
| Scheduling.StreamLoop.Run | src/stream_manager.cpp:246-439 | Any number of turns of the loop under fixed subscriptions: each is a pass that starts where the one before ended, and the attempts are theirs in order. |
| Scheduling.ReadyAcrossPasses | src/stream_manager.cpp:308-439 | Across passes: under fixed subscriptions a camera that always has a frame is among the first attempts of a run of passes, as many as it is looks away, so within n. |
| Scheduling.ReadyWithinPasses | src/stream_manager.cpp:308-439 | And it is attempted within as many passes, whatever the other cameras do. |
| Scheduling.EveryCameraLookedAt | src/stream_manager.cpp:313-315 | Every camera is looked at within n looks, whatever the others do. |
| Watchdog.CaptureWatch.OnFrame | src/camera.cpp:464-481 | A frame sets the time, clears the latch and takes a quarter of the difference off the average. |
| Watchdog.CaptureWatch.CaptureStalledForUs | src/camera.cpp:706-736 | Computes the silence, or 0 below the limit. |
| Watchdog.CaptureWatch.MarkCaptureFailed | src/camera.cpp:738-749 | True exactly for the first mark since the latch was cleared. |
| Watchdog.SilenceCounts | src/camera.cpp:713-735 | A silence counts exactly if it exceeds three seconds and ten times each known cadence. |
| Watchdog.OneReportPerEpisode | src/camera_manager.cpp:153-164 | Between two reports a frame was delivered or capture restarted, in every interleaving. |
| Watchdog.AverageWithinGaps | src/camera.cpp:464-481 | Since the start the integer average lies between the smallest and the largest interval. |
| Watchdog.AverageApproaches | src/camera.cpp:472-480 | Each interval takes a quarter of the difference off the average, rounded down, and the average never passes it by. |
| Watchdog.SlowerIsUnderrated | src/camera.cpp:472-480 | Over any number of equal intervals: from below the average never reaches the interval, from above it does within as many frames as it is microseconds away. |
| Watchdog.SuspectsWereSilent | src/camera.cpp:706-736 | A suspected camera's frame that was newest when the check began was longer ago, when the check read the clock, than three seconds and ten times each of the interval, the duration and the manual shutter that it read after that. |
| Watchdog.WrongSuspicionExactly | src/camera.cpp:706-736 | A check suspects a camera that is within the limit it read if and only if the silence up to the frame it loaded is too long and a frame arrived between load and judgement, no longer ago than the limit. |
| Watchdog.WrongReport | src/camera_manager.cpp:153-164 | A run in which such a camera is reported. |
| RateControl.AdaptiveRateController.RecordChunkSent | src/rate_controller.cpp:16-30 | Keeps the last twenty send times and increases the rate at every eleventh success. |
| RateControl.AdaptiveRateController.RecordBackpressure | src/rate_controller.cpp:32-49 | Halves the target, or takes 35 percent of it within a second of the last event. |
| RateControl.RatesStayInRange | src/rate_controller.cpp:10-65 | After any events both rates are in [50, 4000], the delay in [250, 20000] microseconds, at most twenty send times kept. |
| RateControl.Recovers | src/rate_controller.cpp:60-65 | After 46 increases the target is 4000, and the gap of the smoothed rate shrinks by 7/10 with each further one. |
| RateControl.ChunksRecover | src/rate_controller.cpp:16-30 | 506 chunks without backpressure bring the target back, whatever happened before. |
| RateControl.IncreaseExactly | src/rate_controller.cpp:60-65 | After any number of increases the target is the starting one times that power of 1.1, at most 4000. |
| RateControl.BackOffExactly | src/rate_controller.cpp:32-49 | After any series of backpressure events the target is the starting one times 0.35 for each event within a second of the one before and 0.5 for each other, at least 50. |
| RateControl.Smooths | src/rate_controller.cpp:60-65 | Every adjustment closes three tenths of the gap between the smoothed rate and the new target. |
| RateControl.DelayExactly | src/rate_controller.cpp:10-14 | The delay between two chunks is the largest number of microseconds at which the rate is still reached. |
| RateControl.WindowExactly | src/rate_controller.cpp:16-23 | After any events the window holds the last twenty send times, in order. |
| FileNames.FilenameRoundTrip | tools/yuv420_convert.cpp:69-83 | The converter reads back exactly the camera and frame id a file was named by, for every directory and all 32-bit ids. |
| FileNames.FilenamesDiffer | src/frame_processor_helpers.cpp:47-52 | Two frames have the same name in a directory exactly if both ids agree. |
| FileNames.ParsesExactly | tools/yuv420_convert.cpp:69-83 | Any name is taken for a camera's frame if and only if it is cam, a number without a dash, a dash and a number, each as the standard library reads one - blanks, sign, digits, anything - and cut down to 32 bits. |
| Quadrants.QuadrantsTile | tools/yuv420_convert.cpp:206-213 | Every pixel of an image of any size lies in exactly one quadrant. |
| Quadrants.WriteQuadrants | tools/yuv420_convert.cpp:189-236 | An input name that does not parse writes nothing and fails; otherwise the four quadrants are written under their ids, pixel by pixel the upper-left, upper-right, bottom-left and bottom-right part, turned or not, and the verdict is good exactly if every write succeeded. |
| Quadrants.QuadrantNamesParse | tools/yuv420_convert.cpp:225-228 | A quadrant's file name parses back to the quadrant's id and the frame id, for every directory and extension. |
| Quadrants.QuadrantCamerasDiffer | tools/yuv420_convert.cpp:225-226 | Quadrant ids collide exactly for camera ids equal modulo 2^30. |
| Quadrants.RotateCrop | tools/yuv420_convert.cpp:216-219 | Turning a crop equals cropping the mirrored rectangle from the turned image. |
| Quadrants.RotateThenTileExactly | tools/yuv420_convert.cpp:180-188 | Turned quadrants are the tiles of the turned image if and only if both sizes are even. |

## Left out

- libcamera, mmap, OpenCV, uWebSockets, sockets, files and logging: each is an argument that may succeed or fail; the detector is an arbitrary predicate on frames.
- The mmap-failure path of `Camera::configure` is one more failed preparation; whether each region is unmapped once is not stated.
- `set_process_mode` while RUNNING: `configure` swaps the mode under live threads; the pipeline configures between sessions only.
- Atomics are read and written in one order; weaker memory orders are not modelled. Stale values a thread loaded earlier are.
- Condition variables and sleeps are steps that may happen at any time; the fifty looks of the backpressure wait and the polls of the priority wait are kept, the drain wait is one verdict.
- The backlog budget is resolved by an argument; `src/capacity.cpp` (free memory, disk probe, doubles) is not part of this model, nor is `src/aruco_detector.cpp`.
- `src/focus_region.cpp`, `src/sensor_mode.cpp`, `extractYFromYUV420`, directory and time-stamp naming, parameter-by-parameter configuration building: only easy members.
- The client's text messages, its threads and its missing collection of stale partial frames.
- Whether a pre-reset frame can follow `reset_frame_counts`: a detection under way can publish afterwards, so nothing is claimed.
- A change of subscriptions resets the streaming loop's index; the bounds of `Scheduling` are for fixed subscriptions.
- PipelineTheorems.BacklogIsExact: for sessions whose writer pool has at least one thread; `LeftoversBreakAccounting` says exactly what happens without.
- TriggerPool.StepKeeps: sessions start with an empty write queue, as they do after every session with a writer; `LeftoversBreakAccounting` says exactly what happens otherwise. `TriggerRefusals.CapturesAccounted` is about the same runs.
- SessionCounts.EveryFrameCounts: the same runs, sessions that start with an empty write queue; so for `SessionCounts.BatchesAreWhole`.
- TriggerRace.OvertakingExactly: over the trigger's own steps, in which a reservation may be granted or refused at any time.
- Delivery.SessionDelivers: for frames whose counts fit their fields; `HeaderRoundTrip` says what happens otherwise.
- WireLayout.HeaderAsDocumented: floats are carried as their 32-bit patterns.
- ClientAcceptance.RejectedExactly: which of the client's error messages a rejected message gets is said by the methods of `ChunkParsing` only.
- Priority.ObserverYields: about data chunks; the header goes out on the check made before the frame was chosen.
- Subsample.DecimatePlane: factors up to 4100, as `MeansRightExactly` says what happens beyond; clients may ask for 2, 4 and 8. A factor whose square is 0 in 32 bits divides by zero in the source. The stride is at least the width, as otherwise rows overlap and the last can end outside its plane, and sizes are unbounded integers.
- Subsample.SubsampleYuv420: the same factors and strides.
- FrameProcessors.FrameProcessor.FlushBufferedFrames: a file counts as written when it could be opened, in the source also if the write fails; `disk` stands for that, and for a positive return of `write` in the writers.
- FrameProcessors.CreditsWritten: the two totals are unbounded; `size_t` would wrap at 2^64.
- RateControl.RatesStayInRange: over exact reals; rounding of doubles is not modelled.
- FrameProcessors.FrameProcessor.Stop: the methods of the class run without another thread in between; the interleavings are those of module Pipeline.
