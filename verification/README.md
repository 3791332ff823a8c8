# EdgeVision agent: verified model of the control logic

A Dafny 4.11 model of the stateful control logic of the RK3568 video agent, with proofs
about every run. Foreign calls (camera, NPU, encoder, sockets, timers, file system, clock)
are inputs; the code that reacts to them is modelled branch by branch.

| file | what it models |
|---|---|
| BoundedQueue.dfy | the mutex-protected queue, as values and as a class |
| RecorderModel.dfy | the event recorder as a state machine: calls of other threads, and iterations of `run()` whose four gaps between shared loads can hold any such calls |
| RecorderProofs.dfy, RecorderWindow.dfy, RecorderTheorems.dfy, RecorderEndings.dfy, RecorderDecisions.dfy | the recorder's invariant, the pre-event ring, the promises over every run, exactly what is lost at tails and at shutdown, and when a file is opened and closed |
| EventRecorder.dfy | the recorder object; each method is proved equal to the state machine |
| TriggerRace.dfy | the compare-exchange loop of `trigger` under any interleaving |
| EventStorage.dfy | directory scan, oldest-first eviction, quota test |
| VideoService.dfy, EncoderFeed.dfy | which encoded packets reach a live RTSP source, and what event files lack of the encoder's output |
| Pipeline.dfy, PipelineProofs.dfy, PipelineCommands.dfy, VisionPipeline.dfy | the generation protocol of the capture, inference, control and snapshot threads, what commands do over every run, and the threads' loops in program order |
| Framing.dfy, TcpModel.dfy, TcpProofs.dfy, TcpDecisions.dfy, TcpServer.dfy | line framing, the connection table, and which event closes or keeps a connection |
| TimerBook.dfy, TimerHeap.dfy, TimerManager.dfy | what the timers promise (histories, callbacks, drains), the binary heap, and the manager with lazy cancellation and arming |
| EventLoop.dfy | cross-thread task hand-over and wakeups |
| PostProcess.dfy, Letterbox.dfy | greedy suppression, letterbox geometry, tensor indexing, in exact arithmetic |
| InferenceHealth.dfy | slow-inference hysteresis |

Conventions. Concurrency is interleaving of atomic steps: a section under a mutex, a queue
operation or one access to an atomic. State that exists only to state a property (lists of
submitted packets, notes of epoch increments, bytes the kernel took) is called history and no
branch reads it; a packet's `index` and a frame's `tagged` stand for object identity. The
classes carry the source's fields and loops, and their `ensures` equate the new state with a
function of the old one; the lemmas about those functions hold for every sequence of steps.

What the proofs found, beyond what the code's comments and documents say:

- An event file is an unbroken stretch of submitted packets if and only if no packet
  submitted during its span was stamped before the reset in force
  (`EveryFileIsContiguous`), so always when the encoder stamps in order, as the baseline
  profile does (media/VideoService.cpp:30). A packet that violates it is skipped at
  media/EventRecorder.h:146 together with its gap mark; `OutOfOrderStampsLeaveHole` is a run.
- A trigger that takes effect between the load at media/EventRecorder.h:175 and the reload at
  line 121 is spent although the file ends without it. `TailServesSpentTriggers` says exactly
  when a file serves all the triggers it spends; `TriggerLostAtTail` is a run that loses one.
- A packet accepted after run() last found the queue empty and before the queue is closed is
  never recorded. `ShutdownDrains` is exact; `PacketLostAtShutdown` is a run.
- A recording whose manifest could not be written is never deleted by the quota, like one
  that did not end by itself (`DeletedFilesEndedNaturally`).
- A sample that cannot be mapped or has no time stamp is dropped at
  media/VideoService.cpp:123-131 without telling the recorder or the live source. A live
  source can then get a delta packet whose reference it never saw
  (`LostSampleBreaksTheStream`; `DeltasContinueWhatWasTaken` shows this is the only way), and
  an event file lacks exactly such samples (`FilesLackOnlyUnusableSamples`;
  `FileLacksASample` is a run).
- The 65536-byte test on the input buffer (core/reactor/TcpServer.h:164) is never met: at
  most 8192 + 4 * 4096 bytes are ever buffered.

## Model

| member | source | states |
|---|---|---|
| Queues.QueueConserves | core/ipc/BoundedQueue.h:14-66 | over every history of operations the queue holds the newest accepted items, items leave in order and at most once, and accepted = handed out + dropped + discarded + queued |
| Queues.FifoIsLossless | core/ipc/BoundedQueue.h:27-44 | a queue used only through tryPush, pop and a draining close hands out exactly the accepted items, in order, none skipped |
| Queues.HistoryDecides | core/ipc/BoundedQueue.h:14-66 | over every history an item gets in exactly if the queue was never closed and, for tryPush, has room; only pushLatest on a full queue and popLatest drop; pop hands out the oldest item, popLatest the newest; clear and a discarding close discard everything |
| Queues.MarksFollowHistory | core/ipc/BoundedQueue.h:14-66 | closed if and only if it was closed once; the high mark is the greatest length ever reached |
| Queues.BoundedQueue.PushLatest | core/ipc/BoundedQueue.h:14-26 | refuses when closed, drops the oldest and counts it when full, appends, raises the high mark |
| Queues.BoundedQueue.TryPush | core/ipc/BoundedQueue.h:27-35 | refuses when closed or full and then changes nothing |
| Queues.BoundedQueue.Pop | core/ipc/BoundedQueue.h:36-44 | takes the oldest item, also after closing; nothing when empty |
| Queues.BoundedQueue.PopLatest | core/ipc/BoundedQueue.h:45-54 | takes the newest item, empties the queue and counts the others as dropped |
| Queues.BoundedQueue.Clear | core/ipc/BoundedQueue.h:55-58 | empties the queue and leaves its counters |
| Queues.BoundedQueue.Close | core/ipc/BoundedQueue.h:60-66 | closes; discards only when asked to |
| RecorderProofs.EveryRunKeepsInv | media/EventRecorder.h:62-248 | the joint invariant of queue, gap flag, ring, open file, cutoff, spent triggers and log holds after every run of submits, refusals, triggers, resets, iterations and shutdown |
| RecorderProofs.AbsorbKeeps | media/EventRecorder.h:149-174 | taking a packet keeps the ring a decodable run that ends with it and within 16 MiB |
| RecorderProofs.RouteKeeps | media/EventRecorder.h:175-246 | every exit after the ring upkeep keeps the invariant |
| RecorderProofs.FenceKeeps | media/EventRecorder.h:127-134 | taking a reset closes the file, empties the ring, raises the cutoff and the spent mark consistently |
| RecorderProofs.IterationSees | media/EventRecorder.h:124-246 | the values one iteration loads come from the shared states at its loads, in nondecreasing trigger order, and the popped packet follows the last one |
| RecorderTheorems.GapMarksRefusedPredecessor | media/EventRecorder.h:70-76 | a queued packet carries the gap mark if and only if the packet submitted just before it was refused |
| RecorderTheorems.EveryFileIsContiguous | media/EventRecorder.h:124-246 | every file of every run, finished or open, starts at a keyframe and is an unbroken slice of what was submitted if and only if no packet submitted during its span was stamped before the reset in force; always when stamps are in order |
| RecorderTheorems.OutOfOrderStampsLeaveHole | media/EventRecorder.h:146-147 | a concrete run with an out-of-order stamp after a reset whose open file has a hole |
| RecorderTheorems.EveryManifestIsTrue | media/EventRecorder.h:94-123 | a manifest's first and last stamps are those of its file, and complete means a natural end with every byte written |
| RecorderTheorems.TriggersAreSpentOnce | media/EventRecorder.h:121-201 | each attempt to open a file needs a trigger value above all earlier attempts, all values covered by finished files, and all resets taken plus the tail |
| RecorderTheorems.ResetsFenceFiles | media/EventRecorder.h:127-147 | after a reset at c is taken, finished files and the open one hold only packets stamped at or after c, and files open only for an accepted trigger stamped strictly after c |
| RecorderTheorems.EveryTriggerHasAFate | media/EventRecorder.h:62-201 | over every run, an accepted trigger's value is still above handled_until, or an attempt to open, a finished file or a reset not before it has spent it; none is lost without a record |
| RecorderTheorems.EventsOnlyAdvance | media/EventRecorder.h:85-248 | no event lowers handled_until or the cutoff or rewrites the log, from any state |
| RecorderTheorems.MemoryIsBounded | media/EventRecorder.h:18-174 | at most 120 queued packets and a 16 MiB ring after every event |
| RecorderEndings.TailServesSpentTriggers | media/EventRecorder.h:121-246 | over every run, a file closed at its tail ends with the packet popped and spends every trigger raised so far, and none of these asked for more than the file holds if and only if no trigger asking for more took effect between the load at line 175 and the reload at line 121 |
| RecorderEndings.TriggerLostAtTail | media/EventRecorder.h:121-183 | a run that loses a trigger that way: a keyframe within its tail opens no file |
| RecorderEndings.ShutdownDrains | media/EventRecorder.h:77-143 | over every run, when run() leaves, the queue is empty if and only if it was already closed at the last pop or no packet was submitted between that pop and the closing |
| RecorderEndings.PacketLostAtShutdown | media/EventRecorder.h:126-143 | a run that ends with an accepted packet never taken |
| RecorderDecisions.FileOpensWhenAsked | media/EventRecorder.h:124-232 | over every run, an iteration that takes a packet with no file open attempts to open one if and only if the loaded trigger value is past the packet, not yet spent, and the ring is not empty; the outcome follows from quota and disk, and exactly when opened and written the file holds the whole ring, which ends in that packet |
| RecorderDecisions.OpenFileContinues | media/EventRecorder.h:176-246 | over every run, an open file ends for a spent duration or a denied quota before the packet is written, else gains exactly that packet and then ends for a failed write or a trigger value not past it, else stays open |
| RecorderDecisions.ResetClosesFile | media/EventRecorder.h:127-134 | over every run, a reset not yet taken closes an open file first of all and is always logged |
| RecorderDecisions.GapClosesFile | media/EventRecorder.h:149-153 | over every run, a packet with the gap mark closes the open file before anything else is done with it |
| RecorderDecisions.EmptyQueueDecides | media/EventRecorder.h:135-145 | over every run, an iteration that pops nothing closes an open file exactly on a timeout or, when not timed out, when the queue is closed; otherwise nothing changes |
| RecorderDecisions.EarlyPacketIsSkipped | media/EventRecorder.h:146-147 | over every run, a packet before the reset in force changes nothing |
| RecorderDecisions.CallsDecide | media/EventRecorder.h:55-82 | over every run, a packet is accepted exactly when the queue is open and holds fewer than 120, with the gap mark left by a refusal; a trigger is heard exactly when not before the reset it saw; a reset and a stop change only their own fields |
| RecorderDecisions.RingKeptUpToLimit | media/EventRecorder.h:154-174 | the ring is given up exactly when its window is over 16777216 bytes |
| RecorderWindow.RingIsWindow | media/EventRecorder.h:149-174 | over every run with stamps in order, the ring is the window over the packets accepted since it was last cleared |
| RecorderWindow.PushedIsWindow | media/EventRecorder.h:154-169 | before the size cap too: pushing and trimming one packet yields the window over the longer list |
| RecorderWindow.WindowIsUnique | media/EventRecorder.h:158-169 | the definition of the window (last keyframe old enough, else the first) fixes its start |
| RecorderWindow.TrimReachesStart | media/EventRecorder.h:159-169 | the trimming loop started at a permitted keyframe stops exactly at the window's start |
| EventRecorders.EventRecorder.Submit | media/EventRecorder.h:70-76 | exchanges the gap flag into the packet and sets it again when the queue refuses |
| EventRecorders.EventRecorder.Trigger | media/EventRecorder.h:62-69 | ignores stamps before the reset value it saw, else raises trigger_until_ to at least stamp plus tail |
| EventRecorders.EventRecorder.Reset | media/EventRecorder.h:55-57 | stores the reset stamp and nothing else |
| EventRecorders.EventRecorder.Stop | media/EventRecorder.h:77-82 | closes the queue without discarding |
| EventRecorders.EventRecorder.Finish | media/EventRecorder.h:94-123 | closes an open file with its manifest and spends the trigger value it loads; nothing when no file is open |
| EventRecorders.EventRecorder.TrimRing | media/EventRecorder.h:158-169 | the nested loops equal the recursive trimming, terminate, and keep the byte counter exact without underflow |
| EventRecorders.EventRecorder.UpdateRing | media/EventRecorder.h:154-174 | push, trim and cap; the counter is the exact sum and at most 16 MiB |
| EventRecorders.EventRecorder.WriteOut | media/EventRecorder.h:176-246 | duration limit, opening with its four failures, quota check, write, write error and tail, in that order; what that amounts to is FileOpensWhenAsked and OpenFileContinues |
| EventRecorders.EventRecorder.Iteration | media/EventRecorder.h:124-246 | one pass of the loop with other threads' calls in its gaps is exactly one step of the state machine |
| TriggerRace.StepIsAtomicMax | media/EventRecorder.h:65-68 | every step of the compare-exchange loop refines one atomic maximum |
| TriggerRace.TriggersTakeMaximum | media/EventRecorder.h:62-69 | in every interleaving trigger_until_ never decreases from any point to any later one, and once all calls return it is the maximum of its first value and all targets |
| EventStorage.Reserve | media/EventStorage.h:26-81 | scans, sorts by age, and deletes the shortest oldest-first prefix of deletable files that fits, or all of them, or those up to the file or the space query that threw while the request did not fit; a grant has room in bytes, files and free space, limit by limit |
| EventStorage.Evict | media/EventStorage.h:63-80 | the loop with its two counters computes the greedy answer, the counters always match the surviving files, and every outcome tells how far the loop had come |
| EventStorage.ScanDirectory | media/EventStorage.h:36-59 | the items are exactly the recognized entries, and the total is their sum |
| EventStorage.SortByAge | media/EventStorage.h:61-62 | a permutation in order of age, ties in any order |
| EventStorage.GreedyIsOptimal | media/EventStorage.h:63-80 | when nothing throws and deletions never shrink free space, it grants exactly when deleting every deletable file would satisfy the limits |
| EventStorage.GreedyFindsAFit | media/EventStorage.h:68-80 | in general it grants only when some number of oldest-first deletions satisfies them, and denies only when none does |
| EventStorage.AnswersMeanLimits | media/EventStorage.h:63-80 | a grant leaves bytes, files and free space within the three limits; a denial means one of them fails with every deletable file gone |
| EventStorage.DeletionsAreNeeded | media/EventStorage.h:68-80 | each deletion was made while one of the three limits failed |
| EventStorage.ScanDescribes | media/EventStorage.h:36-59 | the items are exactly the regular, unlinked files of the right name, in order, each with its own and its manifest's bytes, deletable exactly when not active and its manifest says written, complete and why it ended |
| EventStorage.CandidatesAre | media/EventStorage.h:68-78 | those deleted in turn are exactly the deletable ones that are there and whose removal works, each as often as listed |
| EventStorage.OnlyFinalEventsAreDeleted | media/EventStorage.h:40-78 | a deleted file is a recognized, finalized, fully written event, not the active one, and no older deletable file is kept |
| EventStorage.DeletedFilesEndedNaturally | media/EventStorage.h:40-80 | over every run of the recorder and every call on a directory with its files, a recording is deleted only if it ended by tail or duration with every byte and its manifest written; any other survives |
| EventStorage.ItemTellsManifest | media/EventStorage.h:49-58 | a recording is up for deletion exactly when it ended so and is not the active one |
| VideoService.DeltasContinueWhatWasTaken | media/VideoService.cpp:136-158 | over every run a delta packet is offered only right after a packet the same source took, with only unusable samples between; directly after it if and only if there is none |
| VideoService.SourcesStartWithKey | media/VideoService.cpp:92-152 | the first packet a source is offered is a keyframe, sent at time 0 |
| VideoService.ShiftIsConstant | media/VideoService.cpp:148-155 | all packets of a source are shifted by the same amount, and with stamps in order the result never underflows or goes back |
| VideoService.LostSampleBreaksTheStream | media/VideoService.cpp:123-131 | a run where an unusable sample makes a source get a delta packet two samples after its last one |
| VideoService.OfferedExactlyWhen | media/VideoService.cpp:120-158 | over every run a sample is offered if and only if it is usable, a source is connected and holds at most 1048576 bytes, and it is a keyframe or the stream has flowed since one: both told by the events alone |
| VideoService.MembersFollowEvents | media/VideoService.cpp:80-158 | rtsp_input_ is set exactly while connected, and waiting_key_ is clear exactly while the stream flows |
| VideoService.NothingIsOfferedUnprepared | media/VideoService.cpp:97-138 | after a teardown, or a configuration that found no source, nothing is offered until a configuration finds one |
| VideoService.VideoService.OnPacket | media/VideoService.cpp:120-159 | the object stays where its history of callbacks leads, this sample included, so all promises above hold of its offers |
| VideoService.VideoService.Forward | media/VideoService.cpp:136-158 | overflow, waiting for a key, base, push and failed push, in that order |
| EncoderFeed.EveryJointRunFeeds | media/VideoService.cpp:120-135 | over every run of recorder and live source together, what onPacket has submitted is exactly the usable samples, in order |
| EncoderFeed.FilesLackOnlyUnusableSamples | media/VideoService.cpp:120-135 | over every such run, a file, finished or open, with no stamp before the reset in its span holds exactly the usable samples within its span and nothing from outside it |
| EncoderFeed.FileLacksASample | media/VideoService.cpp:123-131 | such a run whose open file lacks a sample between a keyframe and the delta after it |
| EncoderFeed.HeldPacketIsSample | media/VideoService.cpp:125-135 | the packet a file holds for a sample has that sample's stamp and kind |
| PipelineProofs.EveryRunKeepsInv | app/VisionPipeline.cpp:42-413 | the joint invariant of frames, order, published detection, confirmations, publications and previews in every interleaving |
| PipelineProofs.TriggersAreConfirmed | app/VisionPipeline.cpp:196-286 | a publication triggers if and only if video runs and the last event_confirm popped frames were all published with a person in one generation; then no epoch increment lies between tagging any of them and the trigger |
| PipelineProofs.NothingStaleIsPublished | app/VisionPipeline.cpp:268-282 | a result is published only if the epoch was not raised since its frame was tagged |
| PipelineProofs.PublishedStateIsConsistent | app/VisionPipeline.cpp:63-310 | detection frame, number and detections agree; the generation is current, or one behind with inference off, and then the last epoch increment was the self-disable; frames handled by inference strictly increase |
| PipelineProofs.PreviewsMatchTheirFrame | app/VisionPipeline.cpp:424-511 | a preview carries the detections of its own frame and is sent only while its generation is current and inference on |
| PipelineProofs.InferenceKeepsStreak | app/VisionPipeline.cpp:199-286 | the confirmation counter is always the length of the current streak, capped at event_confirm |
| PipelineCommands.FlagFollowsCommands | app/VisionPipeline.cpp:299-413 | over every run inference is on if and only if the last start or stop command said so and it has not switched itself off since |
| PipelineCommands.FlagBeforeCommands | app/VisionPipeline.cpp:299-305 | before any command it is on unless it has switched itself off |
| PipelineCommands.StopSilences | app/VisionPipeline.cpp:268-512 | over every run, between a stop and the next start nothing is published or triggered and no preview is sent |
| PipelineCommands.StepsDecide | app/VisionPipeline.cpp:57-413 | over every run, every step's outcome: which frames enter and leave the queue, what ends a generation (restart, fifth failed copy, command, third error of a current generation), when a result is published and when it triggers |
| VisionPipelines.VisionPipeline.CapturePass | app/VisionPipeline.cpp:57-178 | one pass of captureLoop makes exactly the steps that the restart flag, the device, the copy and the failures in a row call for, in program order, each when it could happen, with steps of the other threads in every gap |
| VisionPipelines.VisionPipeline.CopyPass | app/VisionPipeline.cpp:101-176 | from the tag on: nothing when not ready; a good copy is tagged, stored, tested and offered if the test found inference on; a failed one is counted, and the fifth in a row clears the queue |
| VisionPipelines.VisionPipeline.CaptureLoop | app/VisionPipeline.cpp:57-178 | makes one pass after the other, all of them unless the pipeline stopped running; the protocol's whole invariant holds of the object |
| VisionPipelines.VisionPipeline.InferencePass | app/VisionPipeline.cpp:191-311 | one pass of inferenceLoop makes exactly the steps that the queue, the admission test and the environment call for: none without a frame, else pop and admit, then the service if admitted |
| VisionPipelines.VisionPipeline.ServicePass | app/VisionPipeline.cpp:210-311 | expiry, failure before or after the result, or publication, as the environment decides; the third error in a row leads to the self-disable, and a result begins the count anew |
| VisionPipelines.VisionPipeline.InferenceLoop | app/VisionPipeline.cpp:191-313 | makes one pass after the other, all of them unless the pipeline stopped running; the protocol's whole invariant holds of the object |
| VisionPipelines.VisionPipeline.SnapshotPass | app/VisionPipeline.cpp:481-512 | takes the oldest job and, after other threads ran, makes the generation check on it |
| VisionPipelines.VisionPipeline.RestartSection | app/VisionPipeline.cpp:58-71 | a requested restart raises the epoch and clears the published result |
| VisionPipelines.VisionPipeline.CopyFailed | app/VisionPipeline.cpp:131-155 | the fifth failure in a row raises the epoch and clears the result; others only count |
| VisionPipelines.VisionPipeline.Offer | app/VisionPipeline.cpp:176-176 | the frame is pushed, dropping the oldest when full |
| VisionPipelines.VisionPipeline.ClearQueueAfterCapture | app/VisionPipeline.cpp:72-150 | the queue is cleared after the section, in a step of its own |
| VisionPipelines.VisionPipeline.TakeFrame | app/VisionPipeline.cpp:196-202 | takes the newest frame; a new generation restarts the confirmation count |
| VisionPipelines.VisionPipeline.AdmitSection | app/VisionPipeline.cpp:203-209 | drops a frame when inference is off or the generation is old |
| VisionPipelines.VisionPipeline.PublishSection | app/VisionPipeline.cpp:268-286 | the four tests, the published triple, the confirmation count and the trigger |
| VisionPipelines.VisionPipeline.InferFails | app/VisionPipeline.cpp:289-298 | an error restarts the count; the third in a row leads to the self-disable |
| VisionPipelines.VisionPipeline.DisableSection | app/VisionPipeline.cpp:299-305 | switches inference off and raises the epoch only if the frame's generation is current, leaving the published result |
| VisionPipelines.VisionPipeline.ClearQueueAfterErrors | app/VisionPipeline.cpp:306-307 | the queue is cleared and the error count restarts, in a step of its own |
| VisionPipelines.VisionPipeline.Stop | app/VisionPipeline.cpp:561-563 | clears the running flag, then closes the inference queue, discarding it; other threads may act in between |
| VisionPipelines.VisionPipeline.SwitchSection | app/VisionPipeline.cpp:405-413 | start and stop raise the epoch, set the flag to what the command says, clear the queue and the result in one section |
| VisionPipelines.VisionPipeline.SendSection | app/VisionPipeline.cpp:508-512 | a preview of an old generation, or with inference off, is not sent |
| Framing.FrameMeansSplit | core/reactor/TcpServer.h:182-200 | a buffer yields exactly its nonempty complete lines up to the first piece over 8192 bytes, and is given up if and only if there is such a piece, complete or not |
| Framing.FrameConcat | core/reactor/TcpServer.h:163-200 | more bytes only add to what was framed before |
| Framing.ChunkingDoesNotMatter | core/reactor/TcpServer.h:154-205 | however a stream is cut into reads, messages and verdict are those of the whole stream |
| TcpProofs.TableIsConsistent | core/reactor/TcpServer.h:92-131 | over every run with descriptor reuse the maps are inverse, at most 16 clients are connected, connection numbers are never reused |
| TcpProofs.ResponsesAreConserved | core/reactor/TcpServer.h:54-153 | bytes sent plus output buffer equal the data of the responses taken for that connection number and no other, the retained jobs are those retained and not released, the buffer is at most 65536, the connection waits for writability if and only if output is left, and a half-closed open connection has work left |
| TcpProofs.OpenConnectionsAreFramed | core/reactor/TcpServer.h:154-205 | between events an open connection's messages are the nonempty complete lines of all it received, with callbacks that may send, retain or close |
| TcpProofs.ClosingsAreJustified | core/reactor/TcpServer.h:133-205 | a drained closing has no retained job, no unsent byte and no undelivered message; a framing closing has a piece that is too long; the input limit never closes a connection |
| TcpDecisions.ClosingsFollowFromEvents | core/reactor/TcpServer.h:54-205 | over every run each closing follows from its event: a failed send from a broken one with output to go, an output overflow from a response beyond 65536 bytes, a failed read, a hang-up and a failed registration from just that system result |
| TcpDecisions.WritableDecides | core/reactor/TcpServer.h:133-153 | over every run a writable connection is closed as failed exactly on a broken send of nonempty output, as drained exactly when nothing is left to do, and else keeps what was not taken |
| TcpDecisions.BusyKeeps | core/reactor/TcpServer.h:142-153 | a send that would block closes nothing: output and bytes sent stay, and it waits for writability exactly if there is output |
| TcpDecisions.SendCallDecides | core/reactor/TcpServer.h:68-81 | a response is ignored for an unknown number, closes the connection when it would make more than 65536 bytes, else is appended and sent |
| TcpDecisions.ReleaseCallDecides | core/reactor/TcpServer.h:59-67 | one job less, never below zero, and then the connection may be done |
| TcpDecisions.ConnectDecides | core/reactor/TcpServer.h:107-130 | over every run a connection is refused exactly when sixteen are open, and else takes the next number and stays if registered |
| TcpDecisions.ReadTakes | core/reactor/TcpServer.h:154-180 | over every run, one read event takes the results of at most four reads, each of at most 4096 bytes, up to the first that is neither data nor an interrupted read, and is half-closed exactly if that one was the end |
| TcpProofs.ReceiveAppends | core/reactor/TcpServer.h:159-180 | four reads append at most 16384 bytes, so the input limit is never met |
| TcpServers.TcpServer.CloseClient | core/reactor/TcpServer.h:96-104 | both maps lose the connection; unknown descriptors are ignored |
| TcpServers.TcpServer.FlushClient | core/reactor/TcpServer.h:133-153 | partial, blocked or failed send, the drain test, and the new epoll registration |
| TcpServers.TcpServer.SendResponse | core/reactor/TcpServer.h:68-81 | unknown connection, overflow closing, or append and flush; the result says whether the connection is still there |
| TcpServers.TcpServer.RetainJob | core/reactor/TcpServer.h:54-58 | one more pending job for a known connection |
| TcpServers.TcpServer.ReleaseJob | core/reactor/TcpServer.h:59-67 | one less, never below zero, then a flush |
| TcpServers.TcpServer.AcceptClient | core/reactor/TcpServer.h:107-130 | refuses a seventeenth client, else registers it under a new number, and closes it when registration fails |
| TcpServers.TcpServer.ReceiveAll | core/reactor/TcpServer.h:159-180 | the read loop equals its recursive specification |
| TcpServers.TcpServer.DeliverAll | core/reactor/TcpServer.h:182-200 | the delivery loop equals its recursive specification and terminates, whatever the callbacks do |
| TcpServers.TcpServer.ReadClient | core/reactor/TcpServer.h:154-205 | reading, delivery and the final flush as one event |
| TimerHeap.RootIsEarliest | core/reactor/TimerManager.h:140-146 | the root of the heap is its earliest entry |
| TimerHeap.PushHeap | core/reactor/TimerManager.h:59-59 | the last entry rises: a heap again, the same entries |
| TimerHeap.PopHeap | core/reactor/TimerManager.h:104-106 | the earliest entry moves to the end, the rest is a heap again, the same entries |
| Timers.DelayIsNeverLate | core/reactor/TimerManager.h:156-172 | millisecond truncation never arms late, is early by less than a millisecond, and never disarms |
| Timers.TimerManager.ResetTimerFd | core/reactor/TimerManager.h:149-179 | armed in time for the earliest timer, disarmed when there is none |
| Timers.TimerManager.AddTimer | core/reactor/TimerManager.h:49-67 | a fresh id, one more entry set for now plus the delay, and the descriptor still armed in time; 0 and nothing without a descriptor |
| Timers.TimerManager.CancelTimer | core/reactor/TimerManager.h:70-77 | true exactly for active ids; marks the entry, which keeps active entries and active_ids_ in agreement |
| Timers.TimerManager.Fire | core/reactor/TimerManager.h:108-123 | logs the firing, does exactly what the callback asks for, which takes as long as it waits, and sets a periodic timer not cancelled by then for exactly its period after that; any other is gone |
| Timers.TimerManager.HandleTimerEvent | core/reactor/TimerManager.h:85-129 | nothing unless the descriptor has gone off; otherwise exactly one drain: each timer fired was the earliest active one and due, at the time it was set to, none due is left, and the descriptor is armed in time; terminates when only finitely many callbacks add timers already due |
| Timers.TimerManager.DrainOne | core/reactor/TimerManager.h:98-125 | one turn drops a cancelled entry or fires the earliest; it leaves strictly fewer entries due when the callback adds nothing due |
| Timers.TimerManager.Elapse | core/reactor/TimerManager.h:149-179 | while time passes the descriptor stays armed in time: it has gone off by when the earliest timer is due |
| Timers.TimerManager.Serve | core/reactor/TimerManager.h:49-129 | what each happening adds to the history: time nothing, an addition its timer, a cancellation its mark exactly when the id was active, an interrupt exactly one drain, after which none is due |
| Timers.TimerManager.Live | core/reactor/TimerManager.h:49-129 | every sequence of time passing, additions, cancellations and drains only extends the history, and over all of it times are in order, ids are never reused, a cancelled timer never fires, each firing is not before the time last set, once per setting, and re-arming is exactly one period after the callback; the descriptor stays armed in time |
| Timers.Ring | core/reactor/TimerManager.h:49-129 | a timer added, whose time has passed, has fired once the descriptor is served |
| TimerBook.DrainKeepsPromises | core/reactor/TimerManager.h:96-125 | every drain fires in nondecreasing expiry order, none early, none twice; every timer active before fires as set, is cancelled, or waits; every periodic timer that fired and was not cancelled is put back for its period later; what fired was set before or added; additions and cancellations are the callbacks' |
| TimerBook.DueIsAMeasure | core/reactor/TimerManager.h:98-125 | when callbacks add nothing already due, a drain fires at most as many timers as were due, one less being due after each |
| TimerBook.CancelledNeverFires | core/reactor/TimerManager.h:70-123 | in every possible history a cancelled timer never fires or is re-armed again |
| TimerBook.FiresAsSet | core/reactor/TimerManager.h:108-120 | in every possible history a firing has the time and period the timer was last set to, once per setting |
| TimerBook.TurnRearms | core/reactor/TimerManager.h:108-123 | a timer of period p > 0 ms that fires and is not cancelled is set for p * 1000000 ns after the end of its callback; any other is gone |
| TimerBook.RearmedAfterPeriod | core/reactor/TimerManager.h:115-120 | in every possible history a timer is put back only when its own callback ends, for exactly its period later |
| TimerBook.IdsAreFresh | core/reactor/TimerManager.h:56-66 | in every possible history ids increase |
| TimerBook.DrainIsPossible | core/reactor/TimerManager.h:98-125 | a drain is a possible continuation of the history before it |
| EventLoops.NoLostWakeup | core/reactor/EventLoop.h:173-227 | in every interleaving, a loop about to block with tasks pending has a readable eventfd or a thread just about to write it |
| EventLoops.TasksRunInOrder | core/reactor/EventLoop.h:173-227 | tasks start in queue order and at most once, and none is forgotten |
| EventLoops.TurnRunsEverything | core/reactor/EventLoop.h:79-98 | one undisturbed turn after any wakeup runs every pending task, and spends the counter when that was what woke it |
| EventLoops.EventLoop.Enqueue | core/reactor/EventLoop.h:173-181 | pushes, and asks for a write from another thread or during the calling of functors |
| EventLoops.EventLoop.HandleWakeup | core/reactor/EventLoop.h:207-212 | reading the eventfd resets its counter |
| EventLoops.EventLoop.DoPendingFunctors | core/reactor/EventLoop.h:215-227 | runs exactly the tasks pending at the swap, in order, while others and the functors queue more |
| PostProcess.Nms | hardware/rknpu_infer/Yolov5PostProcess.h:43-63 | the loops compute greedy selection of the top 1000 of a ranking of the input, stopping at 100 |
| PostProcess.NmsIsSound | hardware/rknpu_infer/Yolov5PostProcess.h:43-63 | at most 100 boxes, descending, of one class none overlapping another beyond the threshold, all from the first 1000 of the ranking; every other of these has a kept suppressor at least as confident or met a full hundred |
| PostProcess.NmsIsIdempotent | hardware/rknpu_infer/Yolov5PostProcess.h:43-63 | running it on its result changes only the order of ties |
| PostProcess.NmsIgnoresInputOrder | hardware/rknpu_infer/Yolov5PostProcess.h:44-63 | with distinct confidences the result does not depend on the input order |
| PostProcess.IouIsASimilarity | hardware/rknpu_infer/Yolov5PostProcess.h:39-42 | for boxes with area: symmetric, between 0 and 1, and 1 exactly for equal boxes |
| PostProcess.IouOfNestedAndApart | hardware/rknpu_infer/Yolov5PostProcess.h:39-42 | for a box inside another it is the ratio of their areas, and it is 0 exactly for boxes that share no pixel |
| Letterboxes.MadeBoxFits | hardware/rknpu_infer/Yolov5PostProcess.h:15-27 | rejects sizes that are not positive; otherwise the resized image fits the square, fills its longer side and is centred |
| Letterboxes.MadeBoxKeepsProportions | hardware/rknpu_infer/Yolov5PostProcess.h:20-23 | the shorter side is 640 times short over long to the nearest pixel, or one pixel when that rounds to none |
| Letterboxes.RestoreStaysInImage | hardware/rknpu_infer/Yolov5PostProcess.h:28-35 | every restored rectangle lies inside the image |
| Letterboxes.RestoreIsNearest | hardware/rknpu_infer/Yolov5PostProcess.h:28-34 | a restored coordinate is the pixel nearest to the exact position, or the edge the position lies beyond |
| Letterboxes.RestoreIsMonotone | hardware/rknpu_infer/Yolov5PostProcess.h:28-35 | a box inside another restores to a box inside the other |
| Letterboxes.RestoreInvertsLetterbox | hardware/rknpu_infer/Yolov5PostProcess.h:15-35 | restoring the image of a whole-pixel rectangle gives it back |
| Letterboxes.ReadsAreDisjointAndInBounds | hardware/rknpu_infer/Yolov5PostProcess.h:81-105 | reads stay in the checked buffer and different triples read different elements |
| Letterboxes.EveryElementHasAnIndex | hardware/rknpu_infer/Yolov5PostProcess.h:91-119 | every element of the buffer is the value of one (anchor, channel, cell) |
| Letterboxes.GridsTile | hardware/rknpu_infer/Yolov5PostProcess.h:74-96 | the three heads tile the 640 square: 80, 40 and 20 cells a side, and a cell's column and row lie in the grid |
| InferenceHealth.CountersMatchHistory | app/InferenceHealth.h:23-44 | the counters are the lengths of the latest slow and fast runs, and degraded means three slow in a row with no ten fast in a row since |
| InferenceHealth.FlagTurnsExactly | app/InferenceHealth.h:23-44 | after every history, one more report turns the flag on exactly when the last three were slow, and off exactly when the last ten took less than three quarters of the limit |
| InferenceHealth.FlappingIsBounded | app/InferenceHealth.h:23-44 | degradations and recoveries alternate and each cycle takes at least thirteen completions |
| InferenceHealth.ThirteenCanFlap | app/InferenceHealth.h:23-39 | thirteen completions are enough for one whole cycle |
| InferenceHealth.InferenceHealth.End | app/InferenceHealth.h:23-39 | keeps the counters those of the whole history, and the flag as defined |
| InferenceHealth.InferenceHealth.Fail | app/InferenceHealth.h:40-44 | both runs end, the flag stays |

## Left out

- Devices and libraries: V4L2, RKNN, RGA, OpenCV, GStreamer, MPP; their results are inputs.
- Real sockets, epoll, timerfd, eventfd and the file system, apart from the abstract state named above; an `epoll_ctl` that fails to change an existing registration is not modelled.
- Startup, thread joins and the race of `running_ = !stop_requested_` in core/reactor/EventLoop.h:77; `TcpServer::stop`.
- 64-bit wrap-around of stamps, expiries, epochs and counters, and the wrap of `unsigned` streak counters.
- Floating-point rounding, NaN, `exp` and dequantisation; scores and activations are given, and the decoding of boxes in `process` is left to its index arithmetic.
- Queries, status JSON, metrics, configuration ranges, the reply cache and file names.
- The history of at most 32 finished events kept for `get_events`; the log here is unbounded.
- Age tests (`infer_max_age_ms`, preview freshness) and clock tests of the recorder are inputs, since nothing proved depends on their limits.
- EventStorage.DeletedFilesEndedNaturally: a manifest whose writing failed is taken to be missing or cut short; one complete on disk although closing it failed is not modelled.
- EventStorage.Reserve: free space is given per number of deletions made, so changes by other programs during one call are not modelled.
- PostProcess.Nms: also returns the ranking it used, which the original keeps to itself, so that the contract can name it.
- Timers.TimerManager.HandleTimerEvent: a drain in which callbacks go on for ever adding timers already due does not end, and is not modelled.
- EventRecorders.EventRecorder.Trigger: one step here; that the compare-exchange loop may be taken as one step is proved in module TriggerRace.
- PipelineProofs.TriggersAreConfirmed: an automatic trigger is the call made; what the recorder does with its stamp is the subject of the recorder's theorems.
