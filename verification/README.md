# Xplay in Dafny

Xplay is an Android media player: a demuxer thread, two decoders, two synchronising threads and an audio device,
joined by bounded queues, and a message looper beside them. This project models the concurrent and arithmetic
core of it and proves what that core promises over whole runs.

To check the project, run `dafny verify dfyconfig.toml`.

| files | what they model |
|---|---|
| `MediaClock.dfy` | the drift-based clock: it integrates its speed |
| `MediaSync.dfy`, `SyncTheorems.dfy`, `SyncFrames.dfy` | the video loop as a feedback controller: error band, convergence, no overshoot, pauses, one frame in numbers |
| `BoundedQueue.dfy`, `QueueTheorems.dfy` | the blocking queue for any number of threads, with both condition variables and the unlocked flags |
| `Looper.dfy`, `LooperTheorems.dfy` | handlers, looper and loop thread on top of that queue |
| `FrameRing.dfy`, `FrameRingThreads.dfy` | the keep-last ring of frames: call by call, and with its two threads interleaved inside the calls and between a decoder's stores |
| `PacketQueue.dfy` | the linked packet list and its counters against an abstract queue |
| `Pipeline.dfy`, `PipelineTheorems.dfy`, `PipelineCapacities.dfy` | the whole player: order, termination, and exactly which files deadlock it, also in numbers |
| `PipelineRefinement.dfy`, `PipelineRealization.dfy` | the same player built from those queues and rings, every step of every thread in them, and that the two refine each other |
| `PipelineObjects.dfy` | that player as objects over the queue and ring classes |
| `VecMath.dfy`, `MatrixInverse.dfy`, `Quaternions.dfy`, `VecMathMeaning.dfy`, `VecMathObjects.dfy` | matrix and quaternion algebra, and what it does to single components |
| `Doubles.dfy`, `Options.dfy` | a `double` that may be NaN; an optional value |

Each concurrent part is a step system: a pure function gives the state after one event, a run is any sequence of
events, and an event that cannot happen leaves the state alone. A class with the source's fields does the same by
mutation, and each of its methods is proved equal to the step function; the theorems are about all runs of the
step functions. Time stamps that the code reads from the system clock are parameters.

## Results that differ from what the names and comments of the code suggest

* `quit()` sets its flag and notifies without the queue's mutex. Whatever the other threads do between its three
  steps and afterwards, it wakes everybody for good exactly if, when the flag is set, no thread holding the mutex
  is past its test and about to wait (`QueueTheorems.QuitWakesEveryoneIff`). `QueueTheorems.QuitCanBeMissed` is a
  run in which a consumer sleeps on. The loop thread of a looper misses it in the same way
  (`LooperTheorems.LoopWakesIff`).
* `finished()` notifies consumers only. A producer that waits on the full queue sleeps on, with nothing left to
  produce for, until something is popped (`QueueTheorems.FinishedLeavesProducersWaiting`).
* The player never blocks exactly if, from the start and from every video packet with pts zero, the audio up to the
  next video packet with a nonzero pts fits into 111 places (100 in the packet queue, one in the decoder's hand, 10
  in the ring), or none of it comes after that position; without such a video packet the file has to have no audio
  (`PipelineTheorems.DeadlockFreeIff` and `PipelineCapacities.NeverBlocksInNumbers`, for every file). Timestamps that
  increase strictly through zero do not suffice: `lastFramePts == 0` is tested on every pass, so a negative pts opens
  the gate and a later zero closes it again (`PipelineTheorems.ReclosingIncreases`,
  `PipelineTheorems.ReclosingBlocks`). With more than 111 audio packets before the first video packet with a nonzero
  pts, no schedule at all plays the file (`PipelineCapacities.TooMuchAudioNeverPlays`).
* Both decoders store a frame's size before they are done with its slot, and both synchronising threads look for a
  frame by the size field of the current slot. So a frame can be taken that is only half stored, and a pop can
  make the slot that is being written the retained one (`FrameRingThreads.HastyRun`). Frames are taken as they were
  written exactly if the taker polls `getFrameSize` or the size is stored last
  (`FrameRingThreads.ConsumedInOrderIff`, `FrameRingThreads.ApartWhileWrittenIff`). In the whole player the video
  decoder stores the pts before the size, so the pts that the audio gate tests is always right; the audio decoder
  stores it after, and a frame can be heard with the pts its slot had before
  (`PipelineRealization.HastyFrameIsHeard`). Number, order and sizes of the frames heard are right in any case.
* A clock difference of ten seconds or more is never corrected. With exact sleeps the difference falls below
  0.1 s if and only if it starts below ten seconds (`SyncTheorems.ConvergesIffWithinTenSeconds`).
* A pause restarts both clocks from the pts shown and heard last, so it changes their difference by the time
  between their last settings; it is neutral exactly when those coincide (`SyncTheorems.PauseNeutrality`).
* The size field of the current slot tells whether a frame is pending, except on a ring of one slot that retains
  its frame (`FrameRing.CurrentSlotTellsPending`).
* `inverse` ignores the bottom row: the product with its result is the identity exactly for affine matrices of
  nonzero determinant (`MatrixInverse.InverseIff`), and a singular matrix becomes all zeros.
* `toMatrix` gives a rotation exactly for unit quaternions, or when the vector part is zero
  (`Quaternions.ConjugateInvertsIff`).

## Model

| member | source | states |
|---|---|---|
| MediaClocks.OperationsKeepConsistent | app/src/main/cpp/xplayer/sync/MediaClock.cpp:15-53 | every operation keeps the drift equal to pts minus the time it was set |
| MediaClocks.ClockIsIntegral | app/src/main/cpp/xplayer/sync/MediaClock.cpp:21-45 | after any sequence of speed changes the clock shows the pts it was set to plus the sum of speed times elapsed time over all intervals |
| MediaClocks.ClockIsMonotone | app/src/main/cpp/xplayer/sync/MediaClock.cpp:21-45 | with nonnegative speeds a later reading is never smaller, whatever speed changes lie between |
| MediaClocks.SpeedChangeIsContinuous | app/src/main/cpp/xplayer/sync/MediaClock.cpp:42-45 | a speed change does not move the clock at the instant it happens |
| MediaClocks.SlaveIsFollowed | app/src/main/cpp/xplayer/sync/MediaClock.cpp:47-53 | whatever the times of the two reads and of the setting, the clock takes over what the slave showed exactly when that is set and the clock was unset or read more than 10 s apart; otherwise nothing changes |
| MediaClocks.SlaveGap | app/src/main/cpp/xplayer/sync/MediaClock.cpp:47-53 | with all reads at one instant, the gap to a set slave is at most 10 s afterwards; the reading moves exactly when the clock was unset or further off, and then to the slave's |
| MediaClocks.PausedClockStands | app/src/main/cpp/xplayer/sync/MediaClock.cpp:21-40 | a paused clock shows what it was set to at any time, a running one at the time it was set; setting changes neither speed nor pause |
| MediaClocks.MediaClock.constructor | app/src/main/cpp/xplayer/sync/MediaClock.cpp:15-19 | a new clock is unset and runs at speed 1 |
| MediaClocks.MediaClock.Get | app/src/main/cpp/xplayer/sync/MediaClock.cpp:21-28 | the reading is the specified function of the fields, paused or not |
| MediaClocks.MediaClock.Set | app/src/main/cpp/xplayer/sync/MediaClock.cpp:31-40 | the new state, and that the drift fits the pts |
| MediaClocks.MediaClock.ChangeSpeed | app/src/main/cpp/xplayer/sync/MediaClock.cpp:42-45 | reads the clock, sets it, and changes the speed |
| MediaClocks.MediaClock.FollowSlave | app/src/main/cpp/xplayer/sync/MediaClock.cpp:47-53 | the new state as specified, with a time of its own for each clock read, the slave untouched |
| MediaSync.MediaSync2.CalculateDelay | app/src/main/cpp/xplayer/sync/MediaSync2.cpp:118-132 | the delay is the controller's correction of the requested one for the difference of the two clocks; SyncFrames.ExactFrame says what that is in numbers, branch by branch |
| MediaSync.MediaSync2.AudioCallBack | app/src/main/cpp/xplayer/sync/MediaSync2.cpp:45-48 | the audio clock and the pts heard last are set, nothing else |
| MediaSync.MediaSync2.VideoPlay | app/src/main/cpp/xplayer/sync/MediaSync2.cpp:79-116 | the loop over any passes leaves the state that the run function of the theorems gives; SyncFrames.AbortEndsTheLoop, RunSplits and LastCallbackCounts say what that is |
| MediaSync.MediaSync2.PlayFrame | app/src/main/cpp/xplayer/sync/MediaSync2.cpp:97-112 | one frame is one step: resume, delay, sleep in whole milliseconds, set the video clock; SyncFrames.FrameSetsClocks and FrameAfterPause say field by field what it leaves |
| SyncTheorems.ReachableIsSettled | app/src/main/cpp/xplayer/sync/MediaSync2.cpp:79-116 | in every reachable state both clocks run at speed 1 and show what was shown or heard last |
| SyncTheorems.DiffIsDriftDifference | app/src/main/cpp/xplayer/sync/MediaSync2.cpp:118-120 | the clock difference does not depend on when it is read |
| SyncTheorems.FrameMovesError | app/src/main/cpp/xplayer/sync/MediaSync2.cpp:103-112 | the error after a frame is the error before plus the pts gap minus the chosen delay plus the noise |
| SyncTheorems.FrameWithinLimits | app/src/main/cpp/xplayer/sync/MediaSync2.cpp:103-132 | one frame keeps the band, and from outside comes closer by at least the gap minus the worst noise |
| SyncTheorems.RunApproachesBand | app/src/main/cpp/xplayer/sync/MediaSync2.cpp:79-132 | over a run the band is forward invariant and progress towards it adds up frame by frame, with jitter, lateness and earliness |
| SyncTheorems.SyncConverges | app/src/main/cpp/xplayer/sync/MediaSync2.cpp:103-132 | after error / step frames the error is in the band |
| SyncTheorems.ConvergesIffWithinTenSeconds | app/src/main/cpp/xplayer/sync/MediaSync2.cpp:103-132 | with exact sleeps the difference gets below 0.1 s within difference / gap frames if and only if it starts below 10 s |
| SyncTheorems.ErrorIsClockDiff | app/src/main/cpp/xplayer/sync/MediaSync2.cpp:120-120 | with steady audio the error is the difference the code computes |
| SyncTheorems.RunNeverOvershoots | app/src/main/cpp/xplayer/sync/MediaSync2.cpp:118-132 | with exact sleeps no run flips the sign of the difference or increases it |
| SyncTheorems.SleepTruncates | app/src/main/cpp/xplayer/sync/MediaSync2.cpp:107-110 | the sleep falls short of a nonnegative delay by less than a millisecond |
| SyncTheorems.ErrorBand | app/src/main/cpp/xplayer/sync/MediaSync2.cpp:103-132 | with truncated sleeps, lateness up to J and gaps of at least max(J, 1 ms) the band -(0.1 + J) < error < 0.101 is kept by every run; also with callback jitter |
| SyncTheorems.WaitingShowsNothing | app/src/main/cpp/xplayer/sync/MediaSync2.cpp:82-95 | passes that find a pause or no frame leave the video clock and the last pts alone and remember the pause |
| SyncTheorems.PauseLengthIsForgotten | app/src/main/cpp/xplayer/sync/MediaSync2.cpp:82-101 | the difference after a pause is the last pts shown minus the last pts heard, however long it was |
| SyncTheorems.PauseNeutrality | app/src/main/cpp/xplayer/sync/MediaSync2.cpp:82-101 | a silent pause changes the difference by the time between the last settings of the clocks, and by nothing exactly when they coincide |
| SyncTheorems.UnsetPtsRecovers | app/src/main/cpp/xplayer/sync/MediaSync2.cpp:103-112 | a frame with NaN as pts, and the one after it, are shown without sleeping, and the second sets the clock again |
| SyncFrames.ExactFrame | app/src/main/cpp/xplayer/sync/MediaSync2.cpp:118-132 | one exact frame with a gap d, T being d kept between 0.04 and 0.1, takes a difference m to: m if it is below T or ten seconds off, min(0, m + d) if behind, 0 if ahead and d is above 0.1, m - d if ahead otherwise |
| SyncFrames.TimeOnScreen | app/src/main/cpp/xplayer/sync/MediaSync2.cpp:103-132 | how long the frame before stays: the gap if the difference is small or hopeless, between nothing and the gap if behind, two gaps at most if they are of up to 0.1 s |
| SyncFrames.UnsetClockCorrectsNothing | app/src/main/cpp/xplayer/sync/MediaSync2.cpp:118-122 | with an unset clock the delay stays the gap of the timestamps |
| SyncFrames.FirstFrame | app/src/main/cpp/xplayer/sync/MediaSync2.cpp:103-112 | the first frame of a new synchroniser waits for its whole pts, uncorrected |
| SyncFrames.SleepsWholeMilliseconds | app/src/main/cpp/xplayer/sync/MediaSync2.cpp:107-110 | a sleep is the largest whole number of milliseconds within the delay, and zero for a delay that is not positive or NaN |
| SyncFrames.FrameSetsClocks | app/src/main/cpp/xplayer/sync/MediaSync2.cpp:97-112 | after any frame the video clock shows its pts at the moment of presentation, the audio clock the last pts heard, and no pause is remembered |
| SyncFrames.FrameAfterPause | app/src/main/cpp/xplayer/sync/MediaSync2.cpp:97-112 | the first frame after a pause finds each clock at its last pts, is corrected for the difference of the two, and leaves the flag cleared |
| SyncFrames.ResumedIsPlaying | app/src/main/cpp/xplayer/sync/MediaSync2.cpp:97-101 | from then on the state is one the band theorems start from, with the error of the last picture shown |
| SyncFrames.ConvergesAfterPause | app/src/main/cpp/xplayer/sync/MediaSync2.cpp:82-112 | after a pause of any length, with the last picture less than ten seconds off, enough frames bring the error into the band |
| SyncFrames.LastCallbackCounts | app/src/main/cpp/xplayer/sync/MediaSync2.cpp:45-48 | over any run, also in pauses and while there are no frames, the pts heard last is that of the last callback |
| SyncFrames.AbortEndsTheLoop | app/src/main/cpp/xplayer/sync/MediaSync2.cpp:80-81 | whatever comes after the pass that finds the abort flag, and that pass itself, does nothing |
| SyncFrames.RunSplits | app/src/main/cpp/xplayer/sync/MediaSync2.cpp:79-116 | without an abort one run goes on where the other stopped |
| BoundedQueue.RunKeepsInv | app/src/main/cpp/xplayer/queue/Queue.h:39-117 | every run keeps mutual exclusion, no lost wakeup, first-in-first-out, and what a refused pop implies |
| BoundedQueue.BlockingQueue.Push | app/src/main/cpp/xplayer/queue/Queue.h:39-55 | each stretch of push between two points of interference is the model's step, with the source's return value, and keeps the queue's invariant |
| BoundedQueue.BlockingQueue.Pop | app/src/main/cpp/xplayer/queue/Queue.h:83-101 | the same for pop, with the item handed out |
| BoundedQueue.BlockingQueue.Perform | app/src/main/cpp/xplayer/queue/Queue.h:104-117 | every event, also finished and quit with their notifications one by one, from one valid state to another |
| QueueTheorems.QueueHistory | app/src/main/cpp/xplayer/queue/Queue.h:39-101 | accepted items are the items handed out followed by the contents, which never exceed the capacity |
| QueueTheorems.ProducerOrder | app/src/main/cpp/xplayer/queue/Queue.h:39-101 | each producer's items come out in the order of its calls |
| QueueTheorems.Draining | app/src/main/cpp/xplayer/queue/Queue.h:39-107 | without quit, once a pop returned false everything accepted was taken and nothing is accepted in any continuation |
| QueueTheorems.QuitAdmitsOneMore | app/src/main/cpp/xplayer/queue/Queue.h:39-117 | after quit at most one more operation succeeds, and only one that had tested the flag already |
| QueueTheorems.NeverAllBlocked | app/src/main/cpp/xplayer/queue/Queue.h:39-101 | with capacity one or more a pushing and a popping thread are never both without a step to take in the system |
| QueueTheorems.QuitWakesEveryoneIff | app/src/main/cpp/xplayer/queue/Queue.h:113-117 | for the whole call, with any events between its three steps and after them: nobody is waiting after any of these if and only if no mutex holder was about to wait when the flag was set |
| QueueTheorems.NotificationsWake | app/src/main/cpp/xplayer/queue/Queue.h:115-116 | after the two notifications, with any events between them, nobody is waiting if and only if the mutex holder was not a consumer about to wait |
| QueueTheorems.FinishedWakesConsumersIff | app/src/main/cpp/xplayer/queue/Queue.h:104-107 | for the whole call of finished under interference: no consumer waits from then on if and only if none was past its last test when the flag was set |
| QueueTheorems.FinishedLeavesProducersWaiting | app/src/main/cpp/xplayer/queue/Queue.h:104-107 | after finished a waiting producer sleeps, but for a spurious wakeup or a quit, exactly as long as nothing is popped |
| QueueTheorems.QuitCanBeMissed | app/src/main/cpp/xplayer/queue/Queue.h:83-117 | a run in which quit passes between the test and the wait of a consumer, which then sleeps with nobody left to step |
| QueueTheorems.PushesFill | app/src/main/cpp/xplayer/queue/Queue.h:39-55 | as many pushes as the capacity all return with their items in the queue, in order |
| QueueTheorems.FullQueueMakesWait | app/src/main/cpp/xplayer/queue/Queue.h:39-55 | and the next one waits |
| Loopers.RunKeepsLooperInv | app/src/main/cpp/xhandler/XLooper.cpp:20-54 | every run keeps the looper's invariant: places of threads, one mutex holder, stamped messages, accounting |
| LooperTheorems.RunKeepsOrder | app/src/main/cpp/xhandler/XLooper.cpp:20-24 | every run keeps: what a thread had accepted and still carries are its calls in order, each at most once, and all of them before quit |
| LooperTheorems.LooperDelivers | app/src/main/cpp/xhandler/XHandler.cpp:20-47 | in every run the dispatched messages are a prefix of the accepted ones, and each thread's accepted messages are its calls in order, with the handler, what, arg1 and arg2 of the call, no call twice, none missing before quit |
| LooperTheorems.QuietDeliversAll | app/src/main/cpp/xhandler/XLooper.cpp:42-54 | without quit, when no thread has a step, exactly the messages sent were dispatched, each thread's in the order of its calls, with the handler, what, arg1 and arg2 of the calls |
| LooperTheorems.QuietIff | app/src/main/cpp/xhandler/XLooper.cpp:20-54 | such a state is just one that no step of any thread changes |
| LooperTheorems.CallsAreRecorded | app/src/main/cpp/xhandler/XHandler.cpp:20-31 | the calls that the theorems speak of are the calls the events make, in order |
| LooperTheorems.DispatchedWereSent | app/src/main/cpp/xhandler/XHandler.cpp:20-47 | in every run, what a handler gets was handed to just this handler in some call, with the same what, arg1 and arg2 |
| LooperTheorems.MessagesArrive | app/src/main/cpp/xhandler/XLooper.cpp:20-54 | for any calls there is a run of a new looper after which the handlers have got them all, in order, field by field as handed in |
| LooperTheorems.TenMessagesFit | app/src/main/cpp/xhandler/XLooper.cpp:12-14 | ten messages fit into a new looper's queue, and the eleventh sender waits |
| LooperTheorems.LoopWakesIff | app/src/main/cpp/xhandler/XLooper.h:25-29 | in every continuation after quit returned the loop thread is not asleep, if and only if it was not past its tests and about to wait when quit set the queue's flag |
| LooperTheorems.LoopExits | app/src/main/cpp/xhandler/XLooper.cpp:42-44 | under that condition the loop has ended once no thread has a step |
| LooperTheorems.LoopEndsWithinSix | app/src/main/cpp/xhandler/XLooper.cpp:42-54 | once quit has set both flags the loop thread takes at most six steps more, whatever is queued and whatever the others do, and the count is zero exactly when it has ended |
| LooperTheorems.QuitRuns | app/src/main/cpp/xhandler/XLooper.h:25-29 | an undisturbed quit sets both flags and returns; the loop ends at its next test, and queued messages stay undelivered |
| LooperTheorems.AtMostOneAfterQuit | app/src/main/cpp/xhandler/XLooper.h:25-29 | once quit has set both flags at most one further message is dispatched and none is accepted |
| LooperTheorems.BlockedSenderIsServed | app/src/main/cpp/xhandler/XMessageQueue.h:35-97 | while a sender waits for room the loop thread is not waiting; and while the loop runs it has a step or waits for the holder of the queue's mutex |
| Loopers.XLooper.SendFrom | app/src/main/cpp/xhandler/XHandler.cpp:20-31 | the call is recorded and its message stamped for its handler; LooperTheorems.DispatchedWereSent says what arrives |
| Loopers.XLooper.ThreadSteps | app/src/main/cpp/xhandler/XLooper.cpp:20-24 | the steps of sendMessage and quit outside the queue, under the looper's mutex |
| Loopers.XLooper.PopSteps | app/src/main/cpp/xhandler/XMessageQueue.h:79-97 | the loop thread's steps inside pop |
| Loopers.XLooper.LoopSteps | app/src/main/cpp/xhandler/XLooper.cpp:42-54 | the loop: test isQuit, pop, dispatch to the target |
| Loopers.XLooper.Perform | app/src/main/cpp/xhandler/XLooper.cpp:20-54 | any event of any thread takes a valid looper to a valid one, in the model's new state |
| FrameRing.PushAppends | app/src/main/cpp/xplayer/queue/FrameQueue.cpp:68-76 | a push appends to the frames stored and pending |
| FrameRing.PopConsumes | app/src/main/cpp/xplayer/queue/FrameQueue.cpp:78-92 | a pop consumes the oldest pending frame, which with keep_last is the retained one from then on |
| FrameRing.CurrentSlotTellsPending | app/src/main/cpp/xplayer/queue/FrameQueue.cpp:41-45 | the current slot is the oldest pending frame; its size is zero iff nothing is pending or that frame is empty, except on one retained slot |
| FrameRing.EarlyPopCommutes | app/src/main/cpp/xplayer/queue/FrameQueue.cpp:68-92 | popping before pushFrame and after it lead to the same ring, exactly if a frame is not retained yet or size is positive |
| FrameRing.KeepsLastConsumed | app/src/main/cpp/xplayer/queue/FrameQueue.cpp:51-92 | over any operations frames come out in order, none lost, and lastFrame is the one consumed last |
| FrameRing.PushesFill | app/src/main/cpp/xplayer/queue/FrameQueue.cpp:55-76 | of any frames pushed with no pop between, as many as there are free slots become pending, in order |
| FrameRing.StartedHolds | app/src/main/cpp/xplayer/queue/FrameQueue.cpp:5-17 | a new ring has ten slots, or max_size if that is less, and holds that many frames |
| FrameRing.FrameQueue.constructor | app/src/main/cpp/xplayer/queue/FrameQueue.cpp:5-17 | a new ring is empty and aborted with at most 10 slots, and valid if it has any |
| FrameRing.FrameQueue.CurrentFrame | app/src/main/cpp/xplayer/queue/FrameQueue.cpp:41-45 | the index is the shown one, and between calls its slot holds the oldest pending frame if there is one |
| FrameRing.FrameQueue.LastFrame | app/src/main/cpp/xplayer/queue/FrameQueue.cpp:51-53 | the slot returned holds the oldest stored frame |
| FrameRing.FrameQueue.PeekWritable | app/src/main/cpp/xplayer/queue/FrameQueue.cpp:55-66 | waits exactly when full and not aborted, returns nothing exactly when aborted, else the write slot |
| FrameRing.FrameQueue.PeekWoken | app/src/main/cpp/xplayer/queue/FrameQueue.cpp:59-65 | after the wait the write slot is returned unless aborted, whatever the size is by then |
| FrameRing.FrameQueue.PushFrame | app/src/main/cpp/xplayer/queue/FrameQueue.cpp:68-76 | the whole new state |
| FrameRing.FrameQueue.DropFrame | app/src/main/cpp/xplayer/queue/FrameQueue.cpp:78-83 | the first piece of popFrame: done when a frame starts to be retained, else the read slot is emptied |
| FrameRing.FrameQueue.PopFrame | app/src/main/cpp/xplayer/queue/FrameQueue.cpp:78-92 | the whole new state |
| FrameRing.FrameQueue.UnrefFrame | app/src/main/cpp/xplayer/queue/FrameQueue.cpp:104-113 | the size of any given slot becomes zero, nothing else changes |
| FrameRing.FrameQueue.Destroy | app/src/main/cpp/xplayer/queue/FrameQueue.cpp:19-25 | the destructor empties every slot of the ring |
| FrameRing.FrameQueue.Flush | app/src/main/cpp/xplayer/queue/FrameQueue.cpp:94-98 | terminates with nothing pending, and if something was, keeps exactly the newest frame, or nothing without keep_last |
| FrameRingThreads.StepKeepsInv | app/src/main/cpp/xplayer/queue/FrameQueue.cpp:55-92 | every sub-step of either thread, also between the decoder's stores, keeps the invariant of indices, counters and contents, in both orders of the stores |
| FrameRingThreads.WriteSlotIsApart | app/src/main/cpp/xplayer/decode/VideoDecode.cpp:82-85 | in every interleaving a slot that the decoder got and has not touched yet is empty and is neither the retained slot nor the one being consumed |
| FrameRingThreads.ConsumedAreWritten | app/src/main/cpp/xplayer/decode/AudioDecode.cpp:74-90 | in every interleaving and either order of the stores, consumed frames are in number and sizes a prefix of those whose size was stored; polling getFrameSize never runs ahead of pushFrame, polling the slot by one frame at most |
| FrameRingThreads.ConsumedInOrderIff | app/src/main/cpp/xplayer/sync/MediaSync2.cpp:34-41 | consumed frames are, contents and all, a prefix of the written ones in every interleaving if and only if the consumer polls getFrameSize or the decoder stores the size last |
| FrameRingThreads.ApartWhileWrittenIff | app/src/main/cpp/xplayer/decode/VideoDecode.cpp:82-103 | a slot being written is neither the retained slot nor the consumer's in every interleaving under exactly the same condition |
| FrameRingThreads.HastyRun | app/src/main/cpp/xplayer/decode/AudioDecode.cpp:79-90 | for the code's order and poll, a run in which a frame is consumed with the pts the slot had before, and its slot is retained while it is still being written |
| FrameRingThreads.ValidBetweenCalls | app/src/main/cpp/xplayer/sync/MediaSync2.cpp:90-114 | between calls, early pops or not, the ring is valid, pending frames are those written and not consumed, and a waiting producer has a consumer with a frame to take |
| FrameRingThreads.FilledAreBegun | app/src/main/cpp/xplayer/decode/AudioDecode.cpp:74-90 | in every interleaving the frames stored so far are those the decoder began to write, in order, but for one it is storing |
| FrameRingThreads.AbortStopsWriting | app/src/main/cpp/xplayer/queue/FrameQueue.cpp:34-66 | after an abort no decoder waits, and whatever the threads do, at most the frame that the decoder already had a slot for is still added |
| FrameRingThreads.WaitsOnce | app/src/main/cpp/xplayer/queue/FrameQueue.cpp:55-66 | only the last step of a pop and an abort wake the decoder, which then gets its slot without another look at the size, or after an abort none |
| PacketQueues.SumsAppend | app/src/main/cpp/xplayer/queue/PacketQueue.cpp:46-48 | appending a packet adds its bytes, its node and its duration to the sums |
| PacketQueues.NoPacketIsLost | app/src/main/cpp/xplayer/queue/PacketQueue.cpp:26-168 | over any operations what entered is what left, in order, followed by the contents |
| PacketQueues.OnlyFlushDrops | app/src/main/cpp/xplayer/queue/PacketQueue.cpp:84-120 | without flush every packet that leaves goes to a caller; abort and start lose none |
| PacketQueues.WhatGetMeans | app/src/main/cpp/xplayer/queue/PacketQueue.cpp:137-168 | a call gets the first packet if and only if there is one and the queue is not aborted; it waits if and only if it is blocking, the queue empty and not aborted |
| PacketQueues.AbortFreezes | app/src/main/cpp/xplayer/queue/PacketQueue.cpp:102-120 | until it is started again an aborted queue neither takes nor gives a packet, and keeps those it has |
| PacketQueues.AbortAndStart | app/src/main/cpp/xplayer/queue/PacketQueue.cpp:26-120 | what abort, start, flush and a push without memory leave, field by field |
| PacketQueues.PacketQueue.PushPacket | app/src/main/cpp/xplayer/queue/PacketQueue.cpp:26-70 | the list grows by the packet, counters exact, or -1 when aborted or out of memory |
| PacketQueues.PacketQueue.Link | app/src/main/cpp/xplayer/queue/PacketQueue.cpp:37-45 | the node is appended to an acyclic list |
| PacketQueues.PacketQueue.Unlink | app/src/main/cpp/xplayer/queue/PacketQueue.cpp:147-152 | the first node is taken off, the rest stays a list |
| PacketQueues.PacketQueue.GetPacket | app/src/main/cpp/xplayer/queue/PacketQueue.cpp:137-168 | result and new contents for every branch: aborted, first packet, empty without and with blocking |
| PacketQueues.PacketQueue.FlushPackets | app/src/main/cpp/xplayer/queue/PacketQueue.cpp:84-100 | the walk over the list terminates and leaves an empty queue |
| PacketQueues.PacketQueue.Perform | app/src/main/cpp/xplayer/queue/PacketQueue.cpp:26-168 | after any mix of operations the list is the abstract queue and the counters are its length and sums |
| Pipeline.RunKeepsInv | app/src/main/cpp/xplayer/demux/FFDemux.cpp:99-148 | every run keeps all bounds and conserves packets through every stage |
| Pipeline.PlaysInOrder | app/src/main/cpp/xplayer/demux/FFDemux.cpp:134-146 | packets reach speaker and screen in file order, none lost and none twice |
| Pipeline.AudioWaitsForVideo | app/src/main/cpp/xplayer/sync/MediaSync2.cpp:34-39 | no audio is heard before a picture with a nonzero pts was shown |
| PipelineTheorems.FirstOpening | app/src/main/cpp/xplayer/sync/MediaSync2.cpp:35-39 | the first video packet with a nonzero pts, or the length of the file |
| PipelineTheorems.NextOpening | app/src/main/cpp/xplayer/sync/MediaSync2.cpp:35-39 | the same from a given position on |
| PipelineTheorems.IncreasingTimesNeverReclose | app/src/main/cpp/xplayer/sync/MediaSync2.cpp:35-39 | strictly increasing nonnegative timestamps never close the audio gate again |
| PipelineTheorems.NeverStuck | app/src/main/cpp/xplayer/decode/AudioDecode.cpp:8-15 | for a file that never blocks, every state without steps has everything heard and shown |
| PipelineTheorems.PlayableNeverStuck | app/src/main/cpp/xplayer/decode/AudioDecode.cpp:8-15 | a corollary for files whose gate stays open once it opened: the audio before the first opening packet decides |
| PipelineTheorems.RunsAreFinite | app/src/main/cpp/xplayer/demux/FFDemux.cpp:99-148 | the steps a run can take are bounded by the work left |
| PipelineTheorems.PlaysToTheEnd | app/src/main/cpp/xplayer/audio/IAudioPlay.cpp:12-46 | every run of a file that never blocks can be continued until everything is played, with at most nine steps per packet |
| PipelineTheorems.LazyGetsStuck | app/src/main/cpp/xplayer/sync/MediaSync2.cpp:34-41 | from a state in which audio was taken only when the demuxer had to, and the gate is closed before an opening packet out of reach, a run gets stuck with packets unplayed |
| PipelineTheorems.BlockedFileBlocks | app/src/main/cpp/xplayer/sync/MediaSync2.cpp:34-41 | every position from which the audio does not fit gives a run from the start that gets stuck with packets unplayed |
| PipelineTheorems.DeadlockFreeIff | app/src/main/cpp/xplayer/decode/VideoDecode.cpp:16-20 | for every file: every reachable state with unplayed packets has a step, if and only if from the start and from every video pts of zero on, the audio before the next opening video packet fits into the audio track's places or none of it comes after that position; without such a packet the file has no audio |
| PipelineTheorems.NeverBlocksIffPlayable | app/src/main/cpp/xplayer/sync/MediaSync2.cpp:35-39 | if the gate never closes again that is to say: the audio before the first opening packet fits |
| PipelineTheorems.ReclosingBlocks | app/src/main/cpp/xplayer/sync/MediaSync2.cpp:35-39 | a video pts of zero after any nonzero one, then more audio than fits: the player blocks, although the audio before the first opening packet fits |
| PipelineTheorems.ReclosingIncreases | app/src/main/cpp/xplayer/sync/MediaSync2.cpp:35-39 | such files can have strictly increasing timestamps |
| PipelineTheorems.UnplayableNeverPlays | app/src/main/cpp/xplayer/sync/MediaSync2.cpp:35-39 | if the audio before the first opening packet does not fit, or there is audio and no such packet, no run under any schedule plays everything |
| PipelineTheorems.SomeRunPlaysIff | app/src/main/cpp/xplayer/sync/MediaSync2.cpp:35-39 | if the gate never closes again, some run plays everything exactly if the file never blocks |
| PipelineCapacities.HundredPacketsFit | app/src/main/cpp/xplayer/decode/AudioDecode.cpp:8-12 | a new decoder's queue takes 100 pushes without a pop, in order, and the 101st waits |
| PipelineCapacities.TenFramesFit | app/src/main/cpp/xplayer/decode/VideoDecode.cpp:16-20 | a new decoder's ring has ten slots and holds ten frames |
| PipelineCapacities.DeviceHoldsAtMost101 | app/src/main/cpp/xplayer/audio/IAudioPlay.cpp:35-46 | in every run the device's list has at most 101 frames, and with as many none is delivered |
| PipelineCapacities.DeviceTakes101 | app/src/main/cpp/xplayer/audio/IAudioPlay.cpp:35-46 | and a run delivers 101 frames of any audio without one being played |
| PipelineCapacities.NeverBlocksInNumbers | app/src/main/cpp/xplayer/decode/VideoDecode.cpp:16-20 | for every file: it never blocks if and only if, from the start and from every video packet with pts zero on, at most 111 audio packets come before the next video packet with a nonzero pts, or none after that position; without such a packet the file has no audio |
| PipelineCapacities.PlayableInNumbers | app/src/main/cpp/xplayer/sync/MediaSync2.cpp:34-41 | for a file whose gate stays open: it never blocks if and only if at most 111 audio packets come before the first video packet with a nonzero pts, and there is one or no audio |
| PipelineCapacities.TooMuchAudioNeverPlays | app/src/main/cpp/xplayer/sync/MediaSync2.cpp:34-41 | with 112 or more no run plays the file |
| PipelineCapacities.OnlyCountsAudio | app/src/main/cpp/xplayer/demux/FFDemux.cpp:134-146 | the audio the theorems count is the number of audio packets at positions before the given one |
| PipelineRefinement.RingPush | app/src/main/cpp/xplayer/decode/AudioDecode.cpp:74-90 | when the size field is stored the pending frames and the retained one are fewer than 10, and the ring shows one frame more, in every state of the other thread |
| PipelineRefinement.RingPop | app/src/main/cpp/xplayer/queue/FrameQueue.cpp:78-92 | the first step of popFrame takes the first frame off what the ring shows, and one is retained from then on |
| PipelineRefinement.RingKeeps | app/src/main/cpp/xplayer/queue/FrameQueue.cpp:55-92 | every other step of the two threads leaves what the ring shows as it was |
| PipelineRefinement.RingLook | app/src/main/cpp/xplayer/queue/FrameQueue.cpp:41-45 | also in the middle of the decoder's stores, the size field of the current slot is nonzero exactly if the ring shows a frame |
| PipelineRefinement.RingRead | app/src/main/cpp/xplayer/sync/MediaSync2.cpp:34-41 | the slot found has the size of the ring's first frame, and all of its contents if the size is stored last |
| PipelineRefinement.RingFull | app/src/main/cpp/xplayer/queue/FrameQueue.cpp:57-60 | a decoder that waits, with no pop under way, waits on a full ring |
| PipelineRefinement.CallReturns | app/src/main/cpp/xplayer/queue/Queue.h:39-101 | inside the player no call of push or pop is refused: one returns with the packet appended, and there was room, or with the first packet, and there was one |
| PipelineRefinement.PushBlocks | app/src/main/cpp/xplayer/queue/Queue.h:39-55 | a push without a step to take means a full packet queue; PipelineCapacities.HundredPacketsFit says how full |
| PipelineRefinement.PopBlocks | app/src/main/cpp/xplayer/queue/Queue.h:83-101 | a pop without a step to take means an empty queue |
| PipelineRefinement.MoveRefines | app/src/main/cpp/xplayer/decode/AudioDecode.cpp:38-90 | every step of any thread, inside push, pop, peekWritable, pushFrame, popFrame or between a decoder's stores, is a possible step of the player of the theorems, or none |
| PipelineRefinement.MachineRefines | app/src/main/cpp/xplayer/demux/FFDemux.cpp:99-148 | so every run of the threads shows a run of the player of the theorems |
| PipelineRefinement.StillIsStuck | app/src/main/cpp/xplayer/queue/FrameQueue.cpp:55-92 | when no thread has a step the player of the theorems is stuck: the waits inside queues and rings add no deadlock |
| PipelineRefinement.MachinePlaysInOrder | app/src/main/cpp/xplayer/sync/MediaSync2.cpp:25-116 | in every run the frames shown are those of the video packets read, in order; those heard are, by number and size, those of the audio packets, and in all contents if the audio decoder stores the size last |
| PipelineRefinement.MachinePlaysAll | app/src/main/cpp/xplayer/decode/AudioDecode.cpp:8-15 | for a file that never blocks, when no thread has a step every frame was shown and, with the same proviso on contents, heard |
| PipelineRealization.RunIsRealized | app/src/main/cpp/xplayer/decode/VideoDecode.cpp:51-103 | conversely every run of the player is one of the threads, with each call made in one piece |
| PipelineRealization.MachineBlocks | app/src/main/cpp/xplayer/decode/VideoDecode.cpp:16-20 | a file that can block has a run of the threads after which no continuation plays it to its end |
| PipelineRealization.MachineNeverPlays | app/src/main/cpp/xplayer/decode/VideoDecode.cpp:16-20 | a file that no schedule plays is not played by any run of the threads |
| PipelineRealization.HastyFrameIsHeard | app/src/main/cpp/xplayer/decode/AudioDecode.cpp:79-90 | with the code's order of stores, a run of all threads in which an audio frame is heard with the pts its slot had before |
| PipelineRealization.HeardAsWrittenIff | app/src/main/cpp/xplayer/decode/AudioDecode.cpp:79-90 | every file is heard as written, contents and all, in every run, if and only if the audio decoder stores the size last |
| PipelineObjects.DecodeLine.GetSlot | app/src/main/cpp/xplayer/queue/FrameQueue.cpp:55-66 | peekWritable, up to its wait and after it, on the ring object |
| PipelineObjects.DecodeLine.Store | app/src/main/cpp/xplayer/decode/AudioDecode.cpp:74-90 | the decoder's next step with its frame, from getting a slot over both stores to the counter, unless it waits |
| PipelineObjects.DecodeLine.Look | app/src/main/cpp/xplayer/sync/MediaSync2.cpp:34-39 | a frame is found exactly if the size of the current slot is not zero |
| PipelineObjects.DecodeLine.Pop | app/src/main/cpp/xplayer/queue/FrameQueue.cpp:78-92 | the next step of popFrame on the ring object; its last one notifies the decoder |
| PipelineObjects.DecodeLine.PopPacket | app/src/main/cpp/xplayer/decode/AudioDecode.cpp:38-42 | the decoder's next step inside pop of the queue object, and the packet it holds when pop returns |
| PipelineObjects.DecodeLine.PushPacket | app/src/main/cpp/xplayer/queue/Queue.h:39-55 | the demuxer's next step inside push of the queue object |
| PipelineObjects.AudioPlay.Update | app/src/main/cpp/xplayer/audio/IAudioPlay.cpp:35-46 | empty data is ignored, more than 100 frames make the caller wait, else the frame is appended |
| PipelineObjects.AudioPlay.UpdateWoken | app/src/main/cpp/xplayer/audio/IAudioPlay.cpp:42-45 | after the wait the frame is appended, however long the list is by then |
| PipelineObjects.AudioPlay.GetData | app/src/main/cpp/xplayer/audio/IAudioPlay.cpp:12-26 | waits on an empty list, gives nothing when stopped, else takes the first frame |
| PipelineObjects.AudioPlay.GetDataWoken | app/src/main/cpp/xplayer/audio/IAudioPlay.cpp:16-25 | after the wait nothing is given when stopped, else the first frame |
| PipelineObjects.MediaPlayer.constructor | app/src/main/cpp/xplayer/demux/FFDemux.cpp:99-114 | a new player is in the state before any move |
| PipelineObjects.MediaPlayer.ReadFrame | app/src/main/cpp/xplayer/demux/FFDemux.cpp:114-133 | the demuxer's read is the move of the model, and says whether it could; the state stays the one that the moves made lead to |
| PipelineObjects.MediaPlayer.PushToDecoder | app/src/main/cpp/xplayer/demux/FFDemux.cpp:139-146 | the demuxer's next step to push the packet into the queue of its stream is the move of the model, or it waits |
| PipelineObjects.MediaPlayer.DecodePacket | app/src/main/cpp/xplayer/decode/AudioDecode.cpp:38-91 | a decoder's next step in its queue or its ring is the move of the model, or it waits |
| PipelineObjects.MediaPlayer.AudioPlayPass | app/src/main/cpp/xplayer/sync/MediaSync2.cpp:34-41 | the audio thread tests frame and lastFramePts, hands the slot's contents to the device, and pops step by step |
| PipelineObjects.MediaPlayer.VideoPlayPass | app/src/main/cpp/xplayer/sync/MediaSync2.cpp:90-114 | the video thread finds the frame, shows it and remembers its pts, and pops step by step |
| PipelineObjects.MediaPlayer.PlayCall | app/src/main/cpp/xplayer/audio/IAudioPlay.cpp:12-26 | the device takes the first frame of its list, or waits |
| PipelineObjects.MediaPlayer.PlaysInOrder | app/src/main/cpp/xplayer/sync/MediaSync2.cpp:25-116 | whatever was called, what the object has shown and heard are the frames read, in order, the heard ones by number and size |
| PipelineObjects.NobodyMovesIsStill | app/src/main/cpp/xplayer/decode/AudioDecode.cpp:38-90 | when none of the threads can make its next move, no move but a spurious wakeup is left |
| PipelineObjects.MediaPlayer.PlaysAll | app/src/main/cpp/xplayer/sync/MediaSync2.cpp:25-116 | an object on a file that never blocks, none of whose threads can move, has shown every picture and played all audio, contents included if the audio decoder stores the size last |
| VecMath.ProductComposes | app/src/main/cpp/xplayer/utils/vecmath.cpp:43-91 | applying a product of matrices is applying one after the other |
| VecMath.MulAssociates | app/src/main/cpp/xplayer/utils/vecmath.cpp:43-82 | the matrix product is associative |
| VecMath.InverseIsUnique | app/src/main/cpp/xplayer/utils/vecmath.cpp:43-82 | a left and a right inverse are equal |
| VecMath.TransposeReverses | app/src/main/cpp/xplayer/utils/vecmath.h:804-824 | transposing reverses products and is its own inverse |
| VecMath.PostTranslateIsProduct | app/src/main/cpp/xplayer/utils/vecmath.cpp:249-268 | postTranslate is the product with a translation matrix |
| VecMathMeaning.ColumnsAreImages | app/src/main/cpp/xplayer/utils/vecmath.cpp:84-91 | the sixteen floats are, four by four, what the matrix makes of the four axes |
| VecMathMeaning.ApplyIsLinear | app/src/main/cpp/xplayer/utils/vecmath.cpp:84-91 | a matrix acts linearly on vectors |
| VecMathMeaning.TransposeIsAdjoint | app/src/main/cpp/xplayer/utils/vecmath.h:804-824 | in a product of vectors a matrix may change sides as its transpose |
| VecMathMeaning.TranslationMoves | app/src/main/cpp/xplayer/utils/vecmath.cpp:249-268 | a translation moves points and leaves directions alone; postTranslate does so before the matrix |
| MatrixInverse.InverseIff | app/src/main/cpp/xplayer/utils/vecmath.cpp:93-165 | each product with the inverse is the identity if and only if the matrix is affine with nonzero determinant |
| MatrixInverse.DetOfProduct | app/src/main/cpp/xplayer/utils/vecmath.cpp:93-141 | the determinant that inverse computes is multiplicative |
| MatrixInverse.InverseIsComplete | app/src/main/cpp/xplayer/utils/vecmath.cpp:93-165 | whenever an affine matrix has an inverse, inverse finds it |
| MatrixInverse.InverseReverses | app/src/main/cpp/xplayer/utils/vecmath.cpp:93-165 | inverting a product reverses it, and inverting twice gives the matrix back |
| VecMathMeaning.InverseOfAnyMatrix | app/src/main/cpp/xplayer/utils/vecmath.cpp:93-165 | for every matrix: sixteen zeros if the upper left part is singular, and otherwise what undoes the upper three rows completed by (0, 0, 0, 1) |
| Quaternions.NormOfProduct | app/src/main/cpp/xplayer/utils/vecmath.h:930-937 | squared norms multiply |
| Quaternions.HamiltonAssociates | app/src/main/cpp/xplayer/utils/vecmath.h:930-937 | the quaternion product is associative |
| VecMathMeaning.HamiltonsRules | app/src/main/cpp/xplayer/utils/vecmath.h:930-937 | the product of each unit i, j, k, 1 with any quaternion, component by component |
| VecMathMeaning.HamiltonDistributes | app/src/main/cpp/xplayer/utils/vecmath.h:930-937 | the product is linear in both factors |
| Quaternions.MatrixActsAsConjugation | app/src/main/cpp/xplayer/utils/vecmath.h:966-989 | the matrix of a unit quaternion acts on every vector as conjugation by it |
| VecMathMeaning.ToMatrixByCrossProducts | app/src/main/cpp/xplayer/utils/vecmath.h:966-989 | for every quaternion, unit or not, its matrix adds 2w (q x v) and 2 q x (q x v) to a vector v |
| Quaternions.ToMatrixIsHomomorphism | app/src/main/cpp/xplayer/utils/vecmath.h:930-989 | for units the matrix of a product is the product of the matrices, and the product is a unit |
| Quaternions.ConjugateTransposes | app/src/main/cpp/xplayer/utils/vecmath.h:957-964 | the conjugate's matrix is the transpose, for every quaternion |
| VecMath.UndoesIff | app/src/main/cpp/xplayer/utils/vecmath.cpp:43-91 | a matrix brings back every vector that another moved if and only if their product is the identity |
| Quaternions.ConjugateInvertsIff | app/src/main/cpp/xplayer/utils/vecmath.h:957-989 | the matrix of a quaternion brings back every vector that its conjugate's moved, exactly for units and for zero vector parts |
| Quaternions.InverseOfRotation | app/src/main/cpp/xplayer/utils/vecmath.h:957-989 | for a unit, inverse of its matrix is the conjugate's matrix |
| VecMathObjects.Matrix4.Product | app/src/main/cpp/xplayer/utils/vecmath.cpp:43-82 | the sixteen sums are the product of columns |
| VecMathObjects.Matrix4.MulAssign | app/src/main/cpp/xplayer/utils/vecmath.h:738-778 | in place, also with the matrix itself on the right |
| VecMathObjects.Matrix4.Transpose | app/src/main/cpp/xplayer/utils/vecmath.h:804-824 | in place, the transpose of the old value |
| VecMathObjects.Matrix4.PostTranslate | app/src/main/cpp/xplayer/utils/vecmath.h:826-832 | in place, the old value times a translation |
| VecMathObjects.Matrix4.Determinant | app/src/main/cpp/xplayer/utils/vecmath.cpp:96-136 | positive and negative terms summed apart add up to the determinant |
| VecMathObjects.Matrix4.CofactorsTimes | app/src/main/cpp/xplayer/utils/vecmath.cpp:142-150 | the nine entries, computed from the array, are the scaled transposed cofactors |
| VecMathObjects.Matrix4.Inverse | app/src/main/cpp/xplayer/utils/vecmath.cpp:93-165 | in place, the inverse of the theorems, or zeros for a singular matrix |
| VecMathObjects.Quaternion.MulAssign | app/src/main/cpp/xplayer/utils/vecmath.h:939-947 | in place, also with the quaternion itself on the right |
| VecMathObjects.Quaternion.Conjugate | app/src/main/cpp/xplayer/utils/vecmath.h:949-954 | in place, the conjugate |
| VecMathObjects.Quaternion.ToMatrix | app/src/main/cpp/xplayer/utils/vecmath.h:966-989 | all sixteen entries of the target are those of the specified matrix |

## Left out

- Foreign calls: FFmpeg, OpenSL ES, OpenGL and JNI. In the pipeline a packet decodes to one frame, and drawing and resampling complete.
- Floating point: rounding, overflow and infinities. A `double` is a real number or NaN; integers are unbounded, so counter overflow in the packet queue is not modelled.
- MediaSync.MediaSync2.CalculateDelay: its two clock reads count as one instant, because they follow each other without a wait; so do the clock reads of one frame's scheduling and those inside `init` and `setClock`. Speed changes and `syncToSlave` keep their reads apart.
- MediaSync.MediaSync2.VideoPlay: see PlayFrame.
- MediaSync.MediaSync2.PlayFrame: audio callbacks land during the sleep or after the video clock is set, not between the statements before the sleep; a callback before the sleep counts as one at the end of the previous pass, so one that falls between the restart of the clocks after a pause and the reading that follows is not modelled.
- `getCurrentPosition` and the position messages that the audio callback posts.
- A resume before the first audio callback sets the audio clock to zero; the theorems on pauses require both clocks to be set.
- Pauses shorter than the video thread's 500 ms polling interval, which it may not see, are runs without a pause here.
- `peek` and `last` of the queues, which return nothing after quit; `length`, which only reads a size.
- The wait of `peekWritable` is an `if`: the ring's theorems assume one producer, one consumer and no spurious wakeup there. `start()` is called before the producer runs. The same goes for the waits of `IAudioPlay`, whose integer `pts` field, a truncated copy, is not modelled.
- FrameRingThreads.StepKeepsInv: single stores to a slot are not told apart: the size field is one store and the rest of the slot another. In the player the rest stands for the pts, which the video decoder stores before the size and the audio decoder after it; the picture, stored after the size, is not followed there.
- PipelineRefinement.MoveRefines: a sync thread reads a slot at one moment after it found the frame, the audio thread when the device has room, where the code reads before it waits for that. The size cannot change in between; a pts stored late is only more often there in time.
- PacketQueues.PacketQueue.PushPacket: the unref of a refused packet, a foreign call, and the notification, which changes no state, do not appear.
- PacketQueues.PacketQueue.GetPacket: a blocking call on an empty queue reports that it waits; the call after the wakeup is another call.
- FrameRing.FrameQueue.constructor: a negative `max_size`, which the code accepts and nobody passes.
- FrameRingThreads.ConsumedInOrderIff: the size field, `windex`, `rindex`, `show_index` and `lastFramePts` are plain fields without a lock or barrier; here their stores become visible in program order, as the source is written. On a processor that reorders them, such as ARM, "the size is stored last" needs a release store to mean what it says. The same holds for ApartWhileWrittenIff and for the player as a whole.
- MediaClocks.SlaveGap: all clock reads at one instant; SlaveIsFollowed has a time for each.
- `nextFrame` of the ring, `pushNullPacket` of the packet queue, and the wakeups of threads blocked in the packet queue.
- Decoder errors: packets that a decoder rejects are dropped there, and `stop()` does not wake a thread blocked on a packet queue.
- A handler that sends from the loop thread itself, which would wait for room that only that thread makes. A missing looper or callback, which only logs.
- `Vector2` to `Vector4`, `lookAt`, `perspective`, rotations from angles and `normalize`.
- MatrixInverse.InverseIff: says nothing about what the result of `inverse` means for a matrix that is not affine, because the code ignores the bottom row.
