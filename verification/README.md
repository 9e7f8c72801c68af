# A verified model of the sample pipeline

The program takes images of samples from one or two cameras, numbers them, shows each
image to a user interface, a network peer and one of two DSPs, uploads the results, and
gives the buffers back to the camera driver. It also talks to the camera heads over LVDS
and rewrites the configuration flash of its FPGA. This project models that code in Dafny
and proves what it promises, and exactly where it does not keep the promise.

`dafny verify dfyconfig.toml` checks everything.

## Layout

The shared pipeline is a step system: a state, the steps the tasks can take, and one
invariant. One step is one call that takes a lock, or one decision between two such calls,
and any task may take the next step. Buffers, groups, messages and DSPs are numbers, a
pointer being the index into the array it was allocated in.

- `GroupStore`: sample groups, image buffers, reference counts, the group pool and the
  driver queues; what every operation on them keeps. `VideoContext` is the same state
  updated in place as the C code does it, each method proved against its store function.
- `Pipeline`, `PipelineInv`, `PipelineResults`, `PipelineLimits`, `PipelineBounds`,
  `PipelineLeaks`, `PipelineStarve`, `PipelineLock`, `PipelineRuns`, `PipelineUploads`,
  `PipelineRecords`, `PipelineRoutes`, `PipelineProgress`: all tasks together, the
  invariant, and the results over every reachable state and every run. `PipelineRuns` has
  the runs from the initial state to each loss. `PipelineProjections` shows that every run
  contains a run of `DspProtocol`, of `Upload` and of `SampleCount`.
- `DspProtocol`: mailbox, back-pressure counter, idle and busy lists, workers, parameter
  update. `DspFactory` has the two lists on linked nodes.
- `Upload`: credits, ring, staging buffer, priority mailbox and its one consumer.
  `Uploader` is the same state updated in place.
- `SampleCount`: the two counters and the 16-slot ring, in place and as a history.
- `ReleaseRace`: releases of a two-image group with their halves interleaved, and the group
  and its images in use again meanwhile.
- `LinkedList`, `SlotPool`, `MessagePool`, `PriorityQueue`, `Mailbox`: the intrusive list
  on the heap, the pools built on it, messages with completion callbacks, priority queues.
  A `SlotPool.Pool` carries a ledger of what it handed out and took back.
- `Crc16`, `Lvds`, `ByteNumbers`, `Counting`: the table-driven CRC against its bit-serial and
  its textbook definition, the frame encoder and the receiver's check.
- `Spi`, `Epcs`: the credit loop against a controller that is ready whenever it likes,
  the NOR flash behind it, the page-splitting writer and the configuration update.

## What is assumed

- A call that takes a lock is one step. The test of `g_sample_ability` before the lock
  (net/net_protocol.c:84) is part of the call's step. `ReleaseRace` alone looks inside a
  release; there calls may interleave.
- The driver hands out any buffer that is queued, or blocks. FPGA readings, DSP results,
  link states, the outcome of allocating an upload message and all scheduling are
  arbitrary.
- Send and judge mode change only while no group is between the places that read them
  (image/video_context.c:392-409, image/dsp_context.c:86); otherwise they are arbitrary.
- Numbering an image is one step, and so is the handler's reading and recording of a trigger
  count. Neither is a locked call: the capture task and the handler run on one CPU at fixed
  priorities 38 and 20 (image/video_context.c:718, fpga/fpga.c:196, tool/thread.c:33-73),
  which keeps the handler out of the branch chain. What one interrupt inside it would do is
  stated exactly for each branch (`SampleCount.InterruptedFirstExactly`,
  `SampleCount.InterruptedSecondExactly`, `SampleCount.InterruptedSkipExactly`,
  `SampleCount.InterruptedThirdExactly`), and so is what happens when the capture task
  overtakes the handler (`SampleCount.OvertakingExactly`).
- Counters of samples do not wrap at 2^32 in the results about numbering.
- Bytes sent to the flash while chip select is forced form one frame; otherwise each is a
  frame of its own.
- The flash chip obeys its write-enable, page-program, bulk-erase and status commands,
  programs by clearing bits, wraps inside a page, and ends every operation after an
  arbitrary number of status reads.

## What the code does not do

These are facts of the code, each proved with the condition under which it happens.

- In send mode 2 the overload branch never releases the network image
  (`PipelineLeaks.ForgottenExactly`, `PipelineLeaks.OverloadLeaksForever`; a run there:
  `PipelineRuns.OverloadIsReached`).
- `image_source` is cleared only at image/video_context.c:384, after the discard loop has
  used it, so that an image taken during a reset can be lost to the driver
  (`PipelineLimits.StrayExactly`; a run there: `PipelineRuns.ImageStrays`).
- Forgotten groups and lost buffers, as many as the last channel has buffers, and no fewer,
  stop the capture task: 17 with channel 1 alone, 7 with channel 2 or both
  (`PipelineStarve.LeaksStarveCapture`, `PipelineStarve.ReachableStarvedExactly`; a run
  there: `PipelineRuns.OverloadStarves`).
- An empty pool returns with its lock held (`PipelineLock.LockExactly`), which ends capture
  and recycling (`PipelineLock.LockedForever`). With one channel the pool is never empty
  (`PipelineBounds.PoolNeverEmpty`); with two each image skipped during a reset costs a
  group, and at least 23 are needed (`PipelineLock.LockNeedsSkips`; a run there:
  `PipelineLock.ResetsCanStopCapture`).
- The unlocked recycle test of a two-image group recycles it once for each test made after
  the last half while neither an image nor the group itself is in use again
  (`ReleaseRace.RecycledExactly`, `ReleaseRace.JudgeExactly`); that may be twice, once or
  never (`ReleaseRace.CanRecycleTwice`, `ReleaseRace.CanRecycleOnceOnly`,
  `ReleaseRace.CanLoseGroup`).
- A sample upload that finds no message keeps its credit (`Upload.LostExactly`); 32 of them,
  and no fewer, end the uploads (`Upload.StarvedExactly`; a run there:
  `Upload.ThirtyTwoLossesStarve`).
- An image repeats the number of an overclocked sample once 16 larger numbers have been
  recorded behind it (`SampleCount.ClashExactly`, `SampleCount.SeventeenMissedClash`), or if
  it is numbered between the handler's reading and recording
  (`SampleCount.OvertakingExactly`). An overclocked sample repeats the number of an image if
  its count does not exceed the shoot count (`SampleCount.RepeatsExactly`; a run there:
  `SampleCount.OverclockRepeatsImage`).
- A reset leaves the ring of overclock numbers as it is, and an entry from before makes an
  image skip numbers (`SampleCount.SkipsExactly`, `SampleCount.ResetLeavesStale`).
- The last byte of an odd LVDS body is overwritten (`Lvds.OddAcceptedExactly`), and a changed
  length word can go unnoticed (`Lvds.LengthChangedExactly`, `Lvds.ShortenedExactly`,
  `Lvds.ChangedLengthEscapes`).
- A flash transaction of no bytes hangs (`Spi.NoBytesNeverEnd`).
- `fpga_burn` programs 173 bytes from behind the block it has reversed (`Epcs.Burn`), which
  its caller has not mapped (`Epcs.ReadsOutsideExactly`). If they can be read, the flash is
  right if and only if each of them is its own reverse (`Epcs.BurntRightExactly`).

## Model

| member | source | states |
|---|---|---|
| `GroupStore.ReleaseCounts` | image/video_context.c:82-157 | A release that is not the last one owed only counts down: every image keeps n-1 references, no queue and no pool changes, the group is not recycled |
| `GroupStore.ReleaseLast` | image/video_context.c:82-157 | The last release owed recycles the group at that call, appends it to the pool, and gives each image to the driver queue of its own channel once if image_source is 0, and to none if it is not |
| `GroupStore.ReleaseOverclock` | image/video_context.c:91-107 | Releasing an overclock group recycles it and leaves both driver queues alone |
| `GroupStore.TakeSoleKeeps` | image/video_context.c:260-286 | Taking an image from the driver with one channel keeps every buffer in exactly one place: its own queue, one group, or stray |
| `GroupStore.TakeSecondKeeps` | image/video_context.c:302-315 | The same for the second image of a pair, with both counts set to 3 |
| `GroupStore.GiveBackFirstKeeps` | image/video_context.c:295-299 | The reset branch puts the buffer back into its queue and leaves the group in nobody's hands |
| `GroupStore.FillOverclockKeeps` | fpga/fpga.c:105-126 | Filling the interrupt's group keeps the buffer and pool invariant |
| `GroupStore.NextPlaceholder` | image/video_context.c:67-73 | The 32 placeholder buffers are used in turn |
| `GroupStore.PlaceholdersDiffer` | image/video_context.c:67-73 | 32 interrupts in a row get different ones |
| `VideoContext.Context.Release` | image/video_context.c:82-157 | The release updated in place computes the store function GroupStore.Release of the old state, for one and two images and for every image_source |
| `VideoContext.Context.Drop` | image/video_context.c:93-99 | One locked half: the count goes down by one modulo 2^32, and on zero the image goes back to the driver, unless image_source says it is not the camera's |
| `VideoContext.Context.ProduceGroup` | image/sample_factory.c:20-39 | Takes the first group of the pool and clears its record; on an empty pool it changes nothing but leaves the lock held |
| `VideoContext.Context.CaptureSole` | image/video_context.c:260-286 | The image leaves the driver queue, enters the group, and gets three references |
| `VideoContext.Context.CaptureFirst` | image/video_context.c:288-294 | With two channels the first image leaves its driver queue and enters the group, without a count yet |
| `VideoContext.Context.ReturnFirst` | image/video_context.c:295-299 | During a reset it goes straight back to its queue |
| `VideoContext.Context.CaptureSecond` | image/video_context.c:301-321 | The second image leaves its queue and enters the group; both images get three references |
| `VideoContext.Context.MarkAsCamera` | image/video_context.c:384 | The group says from now on that its images are the camera's |
| `VideoContext.Context.FillFromInterrupt` | fpga/fpga.c:105-126 | The group gets the next of 32 placeholder buffers in turn, one reference and image_source 1 |
| `PipelineInv.StepInv` | image/video_context.c:230-493 | Every step of every task, in any interleaving, keeps the whole invariant, and moves every group along its life (pool, taken, filled, shared, released one by one, pool) by at most one transition, which is a release exactly for the group the step releases |
| `PipelineResults.ReferenceCounts` | image/video_context.c:282-490 | In every reachable state each image of a group in flight has exactly as many references as routes (UI, network image, result) still owe a release, at most one each; such a group is not in the pool and its images in no driver queue |
| `PipelineResults.LastReleaseRecycles` | image/video_context.c:82-157 | A group that passed line 384 is recycled, and each of its images requeued to its own channel once, at exactly the step that releases its last reference; every other step leaves it shared with its images and one reference less or as many |
| `PipelineResults.LifeOfGroup` | image/video_context.c:82-157 | Over any run such a group is released once for each reference it owed, keeps its images meanwhile, and is recycled, with its images requeued, at exactly the first step that releases its last reference |
| `PipelineLimits.StrayExactly` | image/video_context.c:334-341 | A buffer is lost to the driver exactly when the third release of the discard loop meets an image_source left over from an earlier use; in no other step of any task |
| `PipelineLimits.StraysForever` | image/video_context.c:334-341 | A buffer lost in this way is in no driver queue in any continuation |
| `PipelineRuns.ImageStrays` | image/video_context.c:326-341 | From the initial state, with a group whose image_source is left over, the capture task alone loses the buffer at its sixth step, or with two channels both buffers at its seventh |
| `PipelineBounds.PoolIsLarge` | image/video_context.h:11 | With one channel at most 17 groups share images, one waits for an image and one belongs to the interrupt, so that 13 of 32 groups are left |
| `PipelineBounds.PoolBound` | image/video_context.h:11 | With one channel or two: the groups out of the pool are no more than the buffers of the scarcer channel, the groups dropped, and two |
| `PipelineBounds.PoolNeverEmpty` | image/sample_factory.c:20-46 | With one channel, over every run, the pool always has at least 13 groups, the branch that returns with the lock held is not reached and the interrupt never gets a null group |
| `PipelineLeaks.ForgottenExactly` | image/video_context.c:392-439 | The network-image reference is forgotten exactly by the overload branch in send mode 2 and by a send mode above 2 |
| `PipelineLeaks.JudgeForgets` | image/video_context.c:408-492 | The result reference is forgotten exactly by a judge mode above 3 |
| `PipelineLeaks.OverloadLeaksForever` | image/video_context.c:424-439 | A group judged during an overload in send mode 2 owes its network-image release in every continuation: never recycled, its images never requeued |
| `PipelineRuns.OverloadIsReached` | image/video_context.c:424-439 | Two steps of the operator and five of the capture task, with two channels six, lead from the initial state to such a judgement |
| `PipelineStarve.LeaksStarveCapture` | image/video_context.c:424-439 | With one channel or two: as many forgotten groups and stray buffers of the last channel together as this channel has buffers (17, or 7 if channel 2 is enabled) leave its driver queue empty in every continuation, so that no group is completed |
| `PipelineStarve.StarvedExactly` | image/video_context.c:253-302 | At rest, which includes a capture task blocked in the driver: the driver has an image for every channel if and only if forgotten groups and stray buffers of the last channel together are fewer than its buffers |
| `PipelineStarve.ReachableStarvedExactly` | image/video_context.c:253-302 | This holds after every run from the initial state |
| `PipelineStarve.StraysInPairs` | image/video_context.c:334-341 | With two channels, over every run, as many buffers of channel 1 go astray as of channel 2 |
| `PipelineStarve.SoleLosses` | image/video_context.c:253-286 | With one channel every stray buffer counts, and its queue is the only one |
| `PipelineRuns.OverloadStarves` | image/video_context.c:424-439 | With one channel or two: from the initial state the capture task alone comes to starve, in seven steps for each buffer of its channel, or eight for each of channel 2 |
| `PipelineLeaks.AllBackAtRest` | image/video_context.c:82-157 | When all tasks wait and all mailboxes are empty, a group is in the pool exactly if it was not forgotten or dropped and is not the one the capture task waits for an image with, and a buffer in its queue exactly if it is not stray, not of a forgotten group and not a first image waiting for its partner |
| `PipelineLock.SkipsEndLocked` | image/video_context.c:295-299 | With two channels, skipping one image after another drains the pool, and the next image leaves the lock held |
| `PipelineLock.LockExactly` | image/sample_factory.c:20-39 | A step leaves the pool lock held if and only if it was held before, or the capture task or the interrupt asks for a group while the pool is empty |
| `PipelineLock.LockNeedsSkips` | image/video_context.c:295-299 | With two channels, over every run, the pool has at least 23 groups less the images skipped so far, each of which costs exactly one group; so the lock is left held only after 23 skips |
| `PipelineLock.LockedForever` | image/sample_factory.c:27-28 | Once the lock is left held, by either task and wherever the capture task is, no group is taken and none recycled any more, and a capture task at the top of its loop stays there |
| `PipelineLock.ResetsCanStopCapture` | image/video_context.c:295-299 | From the start 97 steps of the capture task alone are enough for this |
| `PipelineUploads.RecordsArriveUnchanged` | net/net_protocol.c:84-125 | Whenever the wire carries the record of a call of send_sample_info it carries what the group held at that call, although the group was released and may have been refilled since |
| `PipelineUploads.PicturesArriveUnchanged` | net/net_protocol.c:169-218 | Whenever the wire carries the picture of a call of send_image_info it carries the one handed over at that call, and only calls over a link that is up, with the buffer free and a message, are on it |
| `PipelineRecords.InfoStays` | image/video_context.c:230-493 | No step of any task changes the record of a group, but for the six places that write it |
| `PipelineRecords.NumberGiven` | image/video_context.c:326-364 | An image that is numbered has its number in the record of its group when it is shared |
| `PipelineRecords.NumberedRecord` | image/sample_factory.c:30-32 | From the taking of a group to the numbering of its image, whatever happens in between: nothing of an earlier use is left in the record, and an image taken while the counters are in error goes on with number 0 |
| `PipelineRecords.NumbersAreUploaded` | net/net_protocol.c:84-125 | Whatever happens in between, the record uploaded for a group carries the number given to its image |
| `PipelineRecords.ResultIsUploaded` | image/dsp_context.c:57-84 | Whatever happens in between, the record a DSP worker uploads has the time, the decision and the flag of its DSP, the place decided (0, 1 or 2, any other becomes 0, the high half kept), and the number and wheel code of the image |
| `PipelineRecords.JudgementIsUploaded` | image/video_context.c:424-489 | Without a DSP, the record uploaded has the judgement of the mode: not processed and place 1 in an overload, place 1, place 2 or through in the test modes |
| `PipelineRecords.OverclockIsUploaded` | fpga/fpga.c:102-137 | The record uploaded for an overclocked sample carries the trigger count that the interrupt has read, whatever happens between reading, filling and sending |
| `PipelineRoutes.NetworkImagesInOrder` | image/video_context.c:392-406 | Over every run send_image_info gets exactly the images the send mode asks for (all in mode 1, those the DSP wants in mode 2, none in mode 0), each once, in the order posted |
| `PipelineRoutes.OthersAreDropped` | image/video_context.c:392-406 | The other images lose their network reference at the step that decides so |
| `PipelineRoutes.UiImagesInOrder` | image/video_context.c:514-551 | Every numbered image is looked at once by image_show_tsk, in order; those shown are finished once, in order |
| `PipelineRoutes.OnePerPermission` | interface/ui_protocol.c:123-175 | Over every run the user interface gets no more images than it has asked for |
| `PipelineRoutes.AcceptsExactly` | image/video_context.c:409-423 | In every reachable state an image is taken for the DSPs exactly if judge mode 0 is set, fewer than 3 wait and no parameter update is under way |
| `PipelineProjections.RunNumbers` | image/video_context.c:326-364 | The counters and the ring in the pipeline are those of the interrupts, images and resets of the run, in their order |
| `PipelineProjections.RunUploads` | net/net_protocol.c:37-240 | The uploads of every pipeline run are a run of Upload in which every post is taken, so that all results there hold here |
| `PipelineProjections.RunDsps` | image/dsp_context.c:51-115 | The DSP side of every pipeline run is a run of DspProtocol |
| `PipelineProjections.NothingMissing` | net/net.c:74-106 | From the initial state of the pipeline no record and no picture is missing while the link is up whenever the consumer writes |
| `PipelineUploads.BackPressure` | image/video_context.c:409-440 | In every reachable state g_img_not_process is the number of accepted groups no DSP has got, never above 3, and groups reach the DSPs in capture order, each once |
| `PipelineProgress.SomebodyMoves` | image/video_context.c:230-652 | No deadlock while the pool lock is not left held: some task can take a step, or the pipeline is at rest, the capture task possibly blocked in the driver |
| `PipelineProgress.InnerRunsEnd` | image/video_context.c:230-652 | Without new arrivals every schedule is finite, with an explicit bound, wherever the capture task is |
| `PipelineProgress.ComesToRest` | image/video_context.c:230-652 | From every state in which the pool lock is not left held the steps that are left lead to rest, so every group and buffer in flight that was not forgotten comes back |
| `PipelineProgress.ReachableComesToRest` | image/video_context.c:230-652 | So after every run from the initial state with one channel, and with two as long as fewer than 23 images were skipped |
| `DspProtocol.StepInv` | image/dsp_context.c:51-115 | Every step of the capture offer, the process task, the workers and the update task keeps the DSP invariant |
| `DspProtocol.SlotIsSafe` | image/video_context.c:644-650 | The sample slot of a DSP is written only when its worker has finished and no sample is signalled, and no step changes it while the worker is on a sample |
| `DspProtocol.ParamsAreExclusive` | image/dsp.c:562-614 | While parameters are set on a DSP its worker waits and no sample is on its way to it |
| `DspProtocol.UpdateWaitsForIdle` | image/dsp.c:562-626 | The update goes on past its wait exactly when no task owns a DSP |
| `DspProtocol.BothGetParameters` | image/dsp.c:562-614 | An update that is through has set the parameters of both DSPs |
| `DspProtocol.DspsInTurn` | image/dsp.c:538-560 | DSPs are taken in the order in which they came back, whoever takes them |
| `DspProtocol.NoDeadlock` | image/dsp.c:538-614 | The process task, the workers and the update task never block each other for good |
| `DspProtocol.GroupsAreConserved` | image/video_context.c:638-651 | A group enters the DSP side when it is accepted and leaves it when its result is sent; no step loses or duplicates it |
| `DspProtocol.WorkDrops` | image/dsp_context.c:51-115 | Every step of these tasks brings them nearer to rest |
| `DspFactory.Factory.Produce` | image/dsp.c:538-551 | On linked nodes: the first idle DSP moves to the tail of the busy list, both rings stay circular and disjoint |
| `DspFactory.Factory.Recycle` | image/dsp.c:553-560 | On linked nodes: a busy DSP moves from wherever it is to the tail of the idle list |
| `DspFactory.Factory.IsIdle` | image/dsp.c:617-626 | Reports whether no DSP is busy |
| `Upload.StepInv` | net/net_protocol.c:41-130 | Every upload step keeps credits, ring slots, queue order, staging buffer and wire consistent |
| `Upload.InFlightIsSafe` | net/net_protocol.c:41-60 | In every reachable state at most 32 records are in flight, in pairwise distinct consecutive ring slots that still hold what was handed over |
| `Upload.UploadsAreFaithful` | net/net.c:74-106 | Records reach the wire as handed over and in the order of the calls, pictures as staged |
| `Upload.MissingExactly` | net/net.c:74-106 | A record that was given a slot goes missing exactly at the step that finishes it while the link is down |
| `Upload.NoneMissing` | net/net.c:74-106 | While the link is up whenever the consumer writes, what went out is the log of records without those in flight: none is missing |
| `Upload.LogsExactly` | net/net_protocol.c:84-218 | Exactly the calls that are accepted enter the logs, with the very record or picture handed over |
| `Upload.PictureArrives` | net/net_protocol.c:169-218 | Whenever the wire carries a picture it is the one handed over by the call it belongs to |
| `Upload.PictureMissingExactly` | net/net.c:74-106 | A picture goes missing exactly at the step that finishes it while the link is down |
| `Upload.NoPictureMissing` | net/net.c:74-106 | Pictures go out in the order of the calls, each at most once; while the link is up whenever the consumer writes, all staged have gone out but the one in flight |
| `Upload.PostsExactly` | tool/mailbox.c:35-46 | What a call adds to the mailbox: its one message, with its priority |
| `Upload.RecordsFirst` | tool/mailbox.c:35-46 | Records overtake pictures |
| `Upload.FailedPictureFrees` | net/net_protocol.c:196-218 | A call that finds no message or whose post fails leaves the staging buffer free for the next picture |
| `Upload.InsertSorted` | tool/mailbox.c:35-46 | A post keeps the queue in priority order |
| `PriorityQueue.InsertHas` | tool/mailbox.c:35-46 | A post adds exactly the message posted |
| `Upload.InsertSamples` | tool/mailbox.c:35-46 | Records leave the priority mailbox in the order in which they were posted, whatever is posted between them |
| `Upload.LostExactly` | net/net_protocol.c:84-104 | A credit is lost exactly when a call takes one over a link that is up and then finds no message |
| `Upload.LostCreditsStarve` | net/net_protocol.c:92-104 | Such a credit never comes back: after 32 of them no record is ever uploaded again |
| `Upload.StarvedExactly` | net/net_protocol.c:84-104 | There is a continuation after which records are accepted if and only if fewer than 32 credits are lost; with nothing in flight they are accepted at once if and only if fewer are |
| `Upload.ThirtyTwoLossesStarve` | net/net_protocol.c:84-104 | 32 calls in a row that find no message lead there from the start |
| `Upload.InFlightPointsAtLatest` | net/net_protocol.c:106-128 | Over every run, posts failing or not: a record in flight points at what the latest call with its slot handed over, which is its own exactly until 32 further calls are given a slot |
| `Upload.FailedPostsOverwrite` | net/net_protocol.c:106-128 | If posts could fail, a record in flight would be overwritten exactly from 32 failed posts behind it on |
| `Uploader.Sender.SendSampleInfo` | net/net_protocol.c:64-130 | The call updated in place computes Upload.SendSample: credit, ring slot, index, post |
| `Uploader.Sender.AllowSendSample` | net/net_protocol.c:44-58 | Gives one credit back if one is out |
| `Uploader.Sender.SendImageInfo` | net/net_protocol.c:144-240 | Takes the one staging buffer, copies the picture and posts it, or changes nothing |
| `Uploader.Sender.PendOne` | net/net.c:72-78 | The consumer takes the first message of the mailbox |
| `Uploader.Sender.FinishOne` | net/net.c:74-106 | Puts on the wire what the message points at at that time, and runs its finish callback |
| `SampleCount.SampleCounter.FindCurrentCount` | image/sample_count.c:30-48 | Finds and clears the first valid slot with the count, or changes nothing and returns -1 |
| `SampleCount.SampleCounter.WriteSampleCount` | image/sample_count.c:74-83 | Writes the slot at the index, which goes on around the ring of 16 |
| `SampleCount.SampleCounter.RecordOverclock` | fpga/fpga.c:102-107 | The handler takes over the trigger count and records it in the ring |
| `SampleCount.SampleCounter.SampleCountReset` | image/video_context.c:76-80 | Both counters become 0, the ring stays as it is |
| `SampleCount.SampleCounter.NumberImage` | image/video_context.c:326-364 | Numbers, discards or leaves an image unnumbered exactly as the three branches do |
| `SampleCount.StepIncreasing` | image/video_context.c:326-364 | For arbitrary readings and interleavings a number given exceeds the old shoot count, which never decreases between resets; the error branch changes nothing |
| `SampleCount.NumbersIncrease` | image/video_context.c:326-364 | Over every run the numbers given to images between resets strictly increase |
| `SampleCount.StepKeepsHistory` | image/sample_count.c:30-83 | The ring always still holds the last 16 recorded numbers that are ahead of the shoot count |
| `SampleCount.CatchesUp` | image/video_context.c:343-358 | After an image numbered behind the trigger count both counters agree: on that count, or on the number of an image pushed behind it |
| `SampleCount.NextAfterCatchUp` | image/video_context.c:343-358 | So the next image gets the number behind that |
| `SampleCount.Consecutive` | image/video_context.c:327-331 | As long as no trigger is missed, images get consecutive numbers and the counters stay together |
| `SampleCount.MissedTriggers` | image/video_context.c:327-358 | Two images after missed triggers still get the next numbers; the third continues behind the trigger count |
| `SampleCount.ForgetsOne` | image/sample_count.c:30-48 | A look-up uses up exactly one recording of the number it looks for, and none of any other |
| `SampleCount.RecordedExactly` | image/sample_count.c:30-83 | For a number ahead of the shoot count: the ring has it exactly if it is among the last 16 recorded since the reset, or left over from before in a slot not written since |
| `SampleCount.ClashExactly` | image/video_context.c:343-358 | An image gets a number already recorded for an overclocked sample if and only if the number after the shoot count was recorded and at least 16 recorded numbers exceed it |
| `SampleCount.NoClashEver` | image/video_context.c:326-364 | If readings never decrease and no image is numbered in such an overrun, no image ever gets a recorded number |
| `SampleCount.RoomyIsEnough` | image/video_context.c:343-358 | There is no overrun while at most 16 recorded numbers exceed the shoot count |
| `SampleCount.NumbersFromStart` | image/video_context.c:326-364 | From the initial counters: numbers given increase strictly, and under that discipline none is a recorded one |
| `SampleCount.RepeatsExactly` | image/video_context.c:326-364 | The other way round: in every run from the start whose trigger count never runs backwards, a new count recorded for an overclocked sample has already been given to an image if and only if it does not exceed the shoot count |
| `SampleCount.OverclockRepeatsImage` | image/video_context.c:352-357 | It happens two steps from the start: the image that skips to 2 because of an overclock number 1, and the overclock number 2 |
| `SampleCount.SeventeenMissedClash` | image/sample_count.c:74-83 | After n missed samples the next image repeats one of their numbers exactly if n exceeds 16 |
| `SampleCount.SkipsExactly` | image/video_context.c:343-358 | An image is pushed behind the newest overclock number exactly if its own number is among the last 16 recorded or was left in the ring by a reset |
| `SampleCount.ResetLeavesStale` | image/video_context.c:76-80 | An overclock number 1 from before a reset makes the first image after it skip to m + 1 where it would be 1 otherwise |
| `SampleCount.OvertakingExactly` | fpga/fpga.c:102-107 | If the capture task numbers an image between the handler's reading r and its recording, both are given r exactly if r is the next number and not in the ring |
| `SampleCount.InterruptedFirstExactly` | image/video_context.c:327-331 | If the handler records r inside the first branch, the image is given r exactly if r is the next number |
| `SampleCount.InterruptedSecondExactly` | image/video_context.c:345-349 | If the handler records r inside the second branch, the image is given a recorded number exactly in an overrun, as without it, or if r is the next number; the next image goes behind r |
| `SampleCount.InterruptedSkipExactly` | image/video_context.c:345-354 | If it does so before the third branch has set the shoot count, neither this image nor the next is given a recorded number |
| `SampleCount.InterruptedThirdExactly` | image/video_context.c:354-356 | If the handler records r between lines 354 and 356, the next image is given a recorded number exactly if r is the old trigger count plus 2 |
| `ReleaseRace.QueuedOnce` | image/video_context.c:123-151 | With the two locked halves and the recycle test as separate steps, every interleaving requeues each image at most once, and once when all releasers are through |
| `ReleaseRace.AtomicRecyclesOnce` | image/video_context.c:123-156 | If calls are atomic, in any order, only the one that drops the last reference recycles |
| `ReleaseRace.JudgeExactly` | image/video_context.c:153-156 | A test reads the counts of the images the group has at that moment. Until the group is produced again it recycles if and only if every half is done and neither image is out for another group; afterwards if and only if the images it has then are unreferenced |
| `ReleaseRace.RecycledExactly` | image/video_context.c:123-156 | Over every run: the group is recycled once for every releaser that is before its test when the last half has just been done, less the tests that come too late because an image is out again or the group is in use again; exactly once if and only if all other tests were made by then or come too late |
| `ReleaseRace.RecycledBetween` | image/video_context.c:153-156 | While no image is captured again it is recycled at least once and at most once per releaser |
| `ReleaseRace.AllLate` | image/video_context.c:153-156 | Once the group is filled again and its new images stay in use, all tests that are left come too late |
| `ReleaseRace.CanRecycleTwice` | image/video_context.c:153-156 | Two releasers can recycle the same group twice |
| `ReleaseRace.CanRecycleOnceOnly` | image/video_context.c:153-156 | They recycle it once only if it is produced and filled again between their tests |
| `ReleaseRace.CanLoseGroup` | image/video_context.c:153-156 | A last releaser does not recycle the group if its first image is captured again before the test |
| `LinkedList.InitListHead` | tool/list.c:5-9 | Makes the empty ring |
| `LinkedList.AddBetween` | tool/list.c:11-17 | Inserts a node behind the k-th of a ring, which stays circular and doubly linked |
| `LinkedList.ListAdd` | tool/list.c:19-22 | Inserts in front |
| `LinkedList.ListAddTail` | tool/list.c:24-27 | Appends |
| `LinkedList.ListDel` | tool/list.c:29-40 | Removes the k-th node, wherever it is, and clears its links |
| `LinkedList.ListEmpty` | tool/list.c:42-45 | True exactly for the ring of no nodes |
| `SlotPool.Pool.Take` | tool/msg_factory.c:83-113 | Hands out the first free slot, or none if there is none, as the step of the ledger does |
| `SlotPool.Pool.Give` | tool/buf_factory.c:84-94 | Appends a slot in use to the free list, as the step of the ledger does |
| `SlotPool.PoolsPartition` | tool/msg_factory.c:83-139 | Over every run of the ledger, which every pool keeps, free and used slots partition the slots, and slots are handed out first in, first out |
| `MessagePool.Factory.Produce` | tool/msg_factory.c:83-113 | Returns the oldest free message, empty and without any callback of an earlier use, or none; no other message changes |
| `MessagePool.Factory.Recycle` | tool/msg_factory.c:115-139 | Through any by-value copy: the original slot goes back to the tail, its callbacks are run, it is cleared; no other message changes |
| `MessagePool.Factory.RecycleReceived` | tool/msg_factory.c:115-139 | Through the receiver's copy of a message that went through a mailbox: the slot that was sent comes back and its callbacks run |
| `MessagePool.RecycleLog` | tool/msg_factory.c:115-139 | In terms of the operations on a fresh message alone: recycling releases every payload that found room and has a callback, with its own argument and data, in order; then the resource, if the last one set is not null and has a callback; then, as the last and exactly if the last one set is not null, the callback of the message |
| `MessagePool.RecycleRunsAttached` | tool/msg_factory.c:115-139 | Recycling runs exactly the callbacks attached since the message was produced, each once, in that order |
| `MessagePool.QueueIsLast` | tool/message.c:57-67 | A message goes to the queue set last, or to the one it was produced for |
| `MessagePool.PriorityIsLast` | tool/message.c:69-78 | It has the priority set last, or the one it was produced with |
| `MessagePool.PayloadsComeInOrder` | tool/message.c:28-45 | The n-th call of get_data returns the n-th payload, as long as there is one |
| `MessagePool.Message.SetData` | tool/message.c:11-26 | Attaches a payload behind the others; the seventeenth is refused with -1 |
| `MessagePool.Message.GetData` | tool/message.c:28-45 | Returns the payloads in the order they were attached, then nothing |
| `MessagePool.Message.Clear` | tool/message.c:80-90 | Resets everything but the payload array |
| `Mailbox.NeverFull` | tool/mailbox.c:15-46 | Whenever a message is posted its mailbox has room, over every run of produce, post, pend and recycle: mailbox_post never blocks and mailbox_timedpost never times out |
| `Mailbox.DeliveryOrder` | tool/mailbox.c:48-61 | A message is received before every other of lower priority, or of the same priority and posted later; it is in no other mailbox and in nobody's hands |
| `Mailbox.BoxStep` | tool/mailbox.c:35-61 | A post adds one copy, with its slot, its priority and the time; a pend takes the first one out; nothing else changes a mailbox |
| `Mailbox.PoolStep` | tool/msg_factory.c:83-139 | Producing and recycling are those of the slot pool |
| `Crc16.TableIsShifts` | tool/crc16.c:11-44 | Each of the 256 table entries is what eight shifts of the register give |
| `Crc16.TableByte` | tool/crc16.c:47-50 | One table step is the bit-serial step on a whole byte |
| `Crc16.ComputeCrc` | tool/crc16.c:60-65 | The table-driven loop computes the bit-serial CRC of the buffer |
| `Crc16.CrcIsCrcBits` | tool/crc16.c:60-65 | Feeding bytes at once or bit by bit, lowest bit first, is the same |
| `Crc16.CrcIsRemainder` | tool/crc16.h:4-7 | With its bits reversed the CRC is the remainder that the polynomial 0x8005 leaves |
| `Crc16.CrcSplits` | tool/crc16.c:60-65 | The CRC of a concatenation is the CRC of the second part started from that of the first |
| `Crc16.CrcIsInjective` | tool/crc16.c:60-65 | Two registers stay different over any common rest |
| `Crc16.Residue` | tool/crc16.c:60-65 | A message followed by two bytes leaves zero exactly if they are its own CRC, low byte first |
| `Crc16.BurstDetected` | tool/crc16.c:47-65 | Any change confined to 16 consecutive bits, anywhere in a buffer of any length, changes the CRC |
| `Crc16.AdjacentBytesDetected` | tool/crc16.c:47-65 | Any change of two adjacent bytes changes the CRC |
| `Crc16.SeventeenBitsEscape` | tool/crc16.h:4-7 | The bound is exact: a change of the 17 bits of the polynomial goes unnoticed |
| `Lvds.BuildFrame` | lvds/lvds_context.c:106-133 | Builds the frame in place for every network length, with the 16-bit wrap of the length word: command, length, body, CRC word twice; with a length word of 0 or 1 the CRC takes its place; nothing else in the buffer changes |
| `Lvds.WholeBodySent` | lvds/lvds_context.c:106-133 | A network length counts the body and four bytes more: the frame sent has the whole body and declares it |
| `Lvds.Send` | fpga/fpga.c:952-960 | The words written to the FPGA are the frame, low byte first |
| `Lvds.Recv` | fpga/fpga.c:973-1022 | Stores the words received over what an earlier frame left and returns 0 exactly if the frame in the buffer is accepted, 1 on a CRC error, 2 on a timeout |
| `Lvds.CrcTwice` | lvds/lvds_context.c:125-128 | A frame ends with its CRC word, twice |
| `Lvds.EvenAccepted` | lvds/lvds_context.c:106-133 | A frame built from a body of even length is accepted and carries the body unchanged at the same offset |
| `Lvds.FrameArrives` | fpga/fpga.c:1006-1022 | The same in the receive buffer, whatever an earlier frame has left behind it |
| `Lvds.OddAcceptedExactly` | lvds/lvds_context.c:124-126 | The last byte of an odd body is overwritten by the CRC, and the frame is accepted exactly if it equalled the low CRC byte |
| `Lvds.BurstRejected` | fpga/fpga.c:1010-1022 | An accepted frame of even length is rejected after any change confined to 16 consecutive bits of command, body and CRC |
| `Lvds.LengthChangedExactly` | fpga/fpga.c:1010-1022 | What is accepted after a change of the length word alone, in any buffer and for every length that fits it, odd or even, shorter or longer |
| `Lvds.ShortenedExactly` | fpga/fpga.c:1010-1022 | A frame cut short by a changed length word is accepted exactly if its body has the CRC of the shorter frame where that would end |
| `Lvds.ChangedLengthEscapes` | fpga/fpga.c:1010-1022 | So for every shorter frame there is an accepted one that stays accepted when only its length word changes to the shorter length |
| `Lvds.ChangedBodyRejected` | fpga/fpga.c:1010-1022 | An accepted frame of even length is rejected after any change of two adjacent body bytes |
| `Spi.Exchange` | tool/epcs.c:43-106 | The credit loop transmits exactly the given bytes and then zeros, never more than one outstanding, stores exactly the later answers, never reaches -1024, and ends |
| `Spi.Poll` | tool/epcs.c:48-67 | Polling ends under a controller that eventually becomes ready |
| `Spi.Command` | tool/epcs.c:10-120 | A transaction of at least one byte has the effect of its bytes on the chip, between the chip select writes its flags ask for, and returns the answers after the written ones |
| `Spi.NoBytesNeverEnd` | tool/epcs.c:43-106 | A transaction of no bytes never ends, and the first ready transmitter takes the credits to -1024 |
| `Epcs.WriteEnable` | tool/epcs.c:146-158 | The chip becomes writable, nothing else changes |
| `Epcs.ReadStatus` | tool/epcs.c:186-201 | Returns the busy bit of the chip |
| `Epcs.AwaitReleased` | tool/epcs.c:218-227 | Returns when the operation in progress has ended, without changing the chip otherwise |
| `Epcs.WriteBuffer` | tool/epcs.c:229-273 | One whole page program: enable, command with a three-byte address, data, wait |
| `Epcs.BulkErase` | tool/epcs.c:447-466 | Every byte of the chip is 0xFF afterwards |
| `Epcs.ProgramSplices` | tool/epcs.c:229-273 | A program that stays inside its page clears bits exactly where its data go |
| `Epcs.WriteBlock` | tool/epcs.c:343-382 | From any offset and length inside the device: the region is programmed with the data, all other bytes are unchanged, by page programs that cover it in order; an offset outside is refused with -1 and no effect |
| `Epcs.CoveredOnce` | tool/epcs.c:361-377 | What this cover means: every address is in exactly one page program, with its byte, and none crosses a page |
| `Epcs.EraseAndWrite` | tool/epcs.c:343-466 | After an erase of the whole chip a block write leaves exactly the data in its place |
| `Epcs.ReverseIsInvolution` | fpga/fpga.c:1077-1084 | reverse8 exchanges bit i with bit 7-i; applied twice it changes nothing |
| `Epcs.Burn` | fpga/fpga.c:1086-1117 | The flash gets the image from byte 173 on, bits reversed, and in its last 173 bytes what lies in memory behind the reversed block, as it is; if less than that can be read, whole pages are programmed as far as it goes, the rest is erased, and the program dies |
| `Epcs.ImageFromByte173` | tool/epcs.h:30 | Address a of the flash gets byte a + 173 of the image, reversed |
| `Epcs.ReadsOutsideExactly` | net/net_protocol.c:827-828 | With a mapping of exactly the size of the chip, as the caller makes it, the last 173 bytes and no others are read from outside it |
| `Epcs.BurntRightExactly` | fpga/fpga.c:1104-1112 | The flash has the whole image reversed if and only if every byte read from behind the reversed block is its own reverse |

## Left out

- Sockets, reconnecting, and what net_send_tsk does after a short send: a message is written whole or not at all.
- image_sim_tsk and injected images: they bypass the back-pressure counter and share fixed buffers.
- DSP errors and reconnecting, the codec library and its memory: the DSP returns an arbitrary result.
- An exhausted message pool on the internal mailboxes /show, /send, /dsp and /ui, which the code does not test for; on uploads it is modelled.
- The reads of image_num and of the staged headers in send_image_info after its release (net/net_protocol.c:201-218): the picture is one value, copied before the release.
- The 8-byte result array sent to the reject process, wheel codes in the image buffers and test patterns written into frames.
- The unlocked test of g_sample_ability racing with its own update: see the assumptions.
- Upload.StepInv: assumes that posts succeed, which Mailbox.NeverFull shows; what holds when posts fail is Upload.InFlightPointsAtLatest.
- Spi.Command: does not cover transactions of no bytes, which never end (Spi.NoBytesNeverEnd).
- Epcs.WriteBlock: requires the data to end inside the device; the code tests the first address only.
- Lvds.BuildFrame: takes the command word as given; the command tables (lvds/lvds_context.c:31-63) are not modelled. The buffer has to hold the frame.
- Lvds.BurstRejected: keeps the length word; a changed one is Lvds.LengthChangedExactly.
- PipelineProgress.ComesToRest: requires that the pool lock is not left held; from there on recycling tasks wait for it for ever (PipelineLock.LockedForever).
- Epcs.Burn: when the program dies, what the chip has got of the page being sent is not modelled; the chip is not deselected any more.
- Lvds.Recv: requires the declared length to fit the receive buffer; the code reads behind it otherwise.
- SampleCount.StepIncreasing: numbering is one step; interrupts inside the branch chain are stated on their own.
- SampleCount.NoClashEver: numbering is one step, and recording is one with reading; see the assumptions.
- SampleCount.NumbersIncrease: numbering is one step; does not model the wrap of the 32-bit counters.
- Sector erase, flash reads and the electronic signature (tool/epcs.c:162-184, 276-341, 389-441): not used by the update. buf_factory and sample_factory are instances of SlotPool, except that buf_factory_produce ends the program on an empty list.
- Configuration getters and setters, key files, logging, date and time, LED, disk and temperature code.
