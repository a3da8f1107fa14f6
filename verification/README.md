# Verified model of pdserv

pdserv streams signals of a real-time (RT) process to non-real-time (NRT) sessions through
shared memory, without locks on the RT side. This project models its hardest parts in Dafny
and proves what they promise, for every input and every run.

`dafny verify dfyconfig.toml` checks everything.

## How it is laid out

**Streaming protocol.** `SignalLists` has the swap-remove lists, the commands on them and the
layout of a frame. `Protocol` is the state machine: sessions subscribe and unsubscribe, RT
consumes commands, emits list and data frames, sessions synchronise and receive; any
interleaving is a run. The ghost history maps list ids to lists. `ProtocolInvariant` proves the
invariant step by step, `ProtocolTheorems` what follows from it, and `ProtocolPromises` that a
session gets what it asks for. `ProtocolRuns` has two concrete runs. The imperative parts, each proved against the machine, are `CommandRing`, `RtTask`
(with the copy lists), `NrtTask` and `SessionTaskData`; `Refinement` runs the two tasks and their
ring against the machine, one call a step.

**Memory for frames.** `PdoMemory` is the allocator. `FrameSurvival` says exactly when frames of the
RT task survive as long as they should, `ProtocolMemory` that the log of every run of the protocol
is made of such frames, and `ProtocolFrames` that every sequence of them is the log of some run.

**Subscription scheduler.** `Scheduler` models decimation counters, blocks, the shared time
vector and event channels; `SchedulerInvariant` and `SchedulerTheorems` prove what holds in every
run, `SchedulerPromises` that a client gets what it has asked for and when, and
`SchedulerControl` what becomes of the stream when clients join, leave and synchronise;
`SubscriptionManager` has the nested loops.

**XML dialect.** `XmlElement` prints and escapes, `XmlParser` is the resumable scanner,
`XmlRoundTrip` proves that what is printed is read back under any cutting of the text,
`XmlReading` what text that is written by hand, and rubbish in between, comes to,
`XmlBuffer` is the parser with its buffer and its pointers, and `XmlSession` joins the two: what is
printed and sent goes through the limited buffer and is told of as it was. `Base64` is the binary
encoding.

**Smaller cores.** `Directory` (path tree), `SharedMemory` (layout), `ParameterChange`,
`Notification`, `EventRing` and `OutputBuffer`. `Common` has what several of them use.

## Where the code departs from the ideal

- `SessionTaskData::init` does not go past a data frame while it waits for one with the newest
  id, so a session that catches up on an older data frame does not get in sync
  (`ProtocolTheorems.CatchUpOnDataFrame`, `ProtocolRuns.StrandingHappens`). In the log model this
  is for good; in memory it lasts until the frame is overwritten.
- `SessionTaskData::subscribe` activates a signal without the id check of `loadSignalList`
  (`ProtocolTheorems.EarlyActivation`, `ProtocolRuns.EarlyActivationFails`).
- `rxPdo` may return false with a new list loaded and the old frame still current, and leaves the
  frame as it was when it is out of sync. Decoding is therefore stated for a frame that goes with
  the loaded list, which is what an accepted data frame gives.
- The memory for frames counts the bytes of the signals, but list frames take eight bytes per
  signal. In all runs of the protocol, a frame stays intact until minPdoCount - 2 more have been
  emitted if and only if the list of all signals is at most one word longer than their data, or
  there is room for minPdoCount - 1 frames, lists and data in turn, and one list more
  (`ProtocolFrames.LogsSurviveIff`).
- PDOs that arrive in the quiet mode are not counted: a block that the quiet mode interrupts is
  continued afterwards, unless sync starts it over (`SubscriptionManagers.SubscriptionManager.RxPdo`).
- After a closing quote the parser skips to the next space or '>', unless the text runs out
  there. What a text comes to is independent of how it is cut if and only if no closing quote in it
  is followed by two characters or more before the next space or '>' (`XmlParser.CutsIff`,
  `XmlRoundTrip.CutsMayMatter`).
- `moveData` shifts null pointers too. An attribute without a value that is recorded before its
  element has been moved in memory has a pointer that leads nowhere afterwards
  (`XmlBuffer.Parser.GetValue`, `XmlSession.FlagGoesAstray`).
- The parser counts the text since the last name against its limit, also when that element is long
  over, and gives up on blanks alone (`XmlSession.FinishedYetTooLong`, `XmlSession.GiveUp`,
  `XmlSession.TooLongBounds`).
- A hyper node numbers its children by their count and so may reuse a number
  (`Directory.InsertPathIff`, `Directory.NumberTwice`).
- `setValue` leaves the new bytes in shared memory when the exchange with RT fails
  (`ParameterChange.SyncKeptIff`).
- A session that is whole rings of events behind takes itself for up to date, and one that is
  behind by more than a ring otherwise skips events (`EventRing.LaggingPoll`,
  `EventRing.DeliveredIff`).
- `getEventHistory` stops at the place of the session. For one that has yet to receive events from
  before the ring started over, it goes round the ring and gives the oldest events twice
  (`EventRing.HistoryIsRecent`).
- A type whose size is not a multiple of its alignment can misalign the parameters behind it
  (`SharedMemory.AlignedIff`).

## Model

| member | source | states |
|---|---|---|
| `ProtocolTheorems.EndToEndDecoding` | src/lib/SessionTaskData.cpp:123-226 | In every run, for a session in sync whose frame goes with the list it has loaded, getValue of every transferred signal gives exactly the bytes that the signal had when RT copied that frame. |
| `ProtocolTheorems.AcceptedFrameDecodes` | src/lib/SessionTaskData.cpp:158-178 | On intact frames rxPdo skips none and never loses sync: a list frame gives the session its id, and a data frame becomes the one read from, in which every transferred signal decodes to the bytes copied in that cycle. |
| `ProtocolTheorems.EqualIdsEqualOrder` | src/lib/Task.cpp:205-215 | In every run, each list frame shows, and each data frame is laid out by, the one ordered list that the id of the frame stands for; getSignalList gives that of the newest id. |
| `ProtocolTheorems.Replication` | src/lib/Task.cpp:218-278 | In every run, replaying the commands still in the ring on RT's lists gives NRT's lists for every width class, and a signal stands in NRT's lists exactly once, at its copyListPos, if and only if some session subscribes to it. |
| `ProtocolPromises.WantedIsRead` | src/lib/SessionTaskData.cpp:101-226 | In every run, when RT is idle and a session in sync has received all frames, one cycle of RT and one more frame, or two if commands were waiting, are enough: getValue of every signal whose last request by this session was to subscribe gives the bytes of that cycle, and the signal is active. |
| `ProtocolPromises.CycleSendsWanted` | src/lib/Task.cpp:322-444 | In every run, when RT is idle, one cycle consumes all commands and sends a data frame of exactly the signals whose last request by some session was to subscribe, each once, in the order of the newest list, which is sent before it if and only if commands were waiting. |
| `ProtocolPromises.SubscribedAsWanted` | src/lib/SessionTaskData.cpp:101-120 | In every run, a session subscribes to a signal if and only if the last that it has asked for about it was to subscribe. |
| `ProtocolTheorems.ActivationStable` | src/lib/SessionTaskData.cpp:197-220 | A signal activated under the id guard is in every list that the session loads for as long as it stays subscribed, through any later steps and re-synchronisations, at a position inside the frame. |
| `ProtocolTheorems.LoadSettles` | src/lib/SessionTaskData.cpp:207-217 | A receive or scan step that activates a signal by loading a list leaves it settled in the sense that ActivationStable needs. |
| `ProtocolTheorems.ActivatedStaysReadable` | src/lib/SessionTaskData.cpp:197-220 | In every run, once a list loaded by a session has activated a signal, the signal has a place inside the frame in every later state in which the session is in sync, until the session unsubscribes it. |
| `ProtocolTheorems.SettledForever` | src/lib/SessionTaskData.cpp:63-98 | Settled signals stay settled through every run without their unsubscription, also while init is at work. |
| `ProtocolTheorems.GuardDecidesListing` | src/lib/SessionTaskData.cpp:211-213 | For a signal that somebody subscribes to and that the list of an id contains, the guard on subscriptionId holds of that id if and only if every list from it on contains the signal. |
| `ProtocolTheorems.EarlyActivation` | src/lib/SessionTaskData.cpp:103-109 | Where subscribe activates a signal at once, the lists still to be loaded all contain it if and only if the id guard, which subscribe does not check, holds as well. |
| `ProtocolRuns.EarlyActivationFails` | src/lib/SessionTaskData.cpp:103-109 | A concrete run with two sessions and one signal after which the signal is active in a session whose loaded list does not contain it, so that there is no value to be read. |
| `ProtocolTheorems.CatchUpOnDataFrame` | src/lib/SessionTaskData.cpp:68-90 | In the log model, in which frames stay, a session that catches up on a data frame can get in sync from there by some further run if and only if that frame has the newest list id. |
| `ProtocolTheorems.StrandedForever` | src/lib/SessionTaskData.cpp:75-90 | In the log model, in which frames stay, a session stuck on an outdated data frame in init stays stuck whatever the other parties do. |
| `ProtocolRuns.StrandingHappens` | src/lib/SessionTaskData.cpp:68-90 | A concrete run from the initial state that strands a session: it catches up on the first data frame after another session has subscribed, and no further run gets it in sync, in the log model. |
| `ProtocolPromises.ScansToData` | src/lib/SessionTaskData.cpp:75-97 | In every run, a session that has fetched the list passes over list frames to the first data frame; there it gets in sync, with the list it has fetched and the sequence number of the frame, if and only if the frame has the id of that list, and else it fetches the list anew. |
| `ProtocolPromises.PassesFirst` | src/lib/SessionTaskData.cpp:68-85 | A session that came before the first frame goes on with the second as soon as there is one. |
| `ProtocolInvariant.NextKeepsInv` | src/lib/Task.cpp:218-444 | Every step of sessions, NRT and RT keeps the invariant that ties ids, lists, ring, frames and sessions together. |
| `ProtocolInvariant.Run` | src/lib/Task.cpp:322-332 | The state after any sequence of enabled steps satisfies the invariant. |
| `ProtocolInvariant.InsertKeepsNrt` | src/lib/Task.cpp:236-250 | Inserting a signal keeps lists, positions and subscriber sets in agreement and is replayed by its command. |
| `ProtocolInvariant.RemoveKeepsNrt` | src/lib/Task.cpp:251-266 | Removing a signal by moving the last one into its place keeps lists, positions and subscriber sets in agreement and is replayed by its command. |
| `ProtocolInvariant.SpansKeep` | src/lib/Task.cpp:268-269 | subscriptionId stays the last id at which the listing of its signal changed. |
| `ProtocolInvariant.SubscribeKeeps` | src/lib/SessionTaskData.cpp:101-111 | subscribe, with or without a command, keeps the invariant. |
| `ProtocolInvariant.UnsubscribeKeeps` | src/lib/SessionTaskData.cpp:114-120 | unsubscribe keeps the invariant. |
| `ProtocolInvariant.ConsumeKeeps` | src/lib/Task.cpp:335-374 | Consuming a command keeps the invariant. |
| `ProtocolInvariant.EmitListKeeps` | src/lib/Task.cpp:377-403 | Emitting a list keeps the invariant. |
| `ProtocolInvariant.EmitDataKeeps` | src/lib/Task.cpp:406-444 | Emitting data keeps the invariant. |
| `ProtocolInvariant.ScanKeeps` | src/lib/SessionTaskData.cpp:75-94 | The loop of init keeps the invariant, also for a session that came before the first frame and passes over it; a session in sync has loaded the list of its frame's id. |
| `ProtocolInvariant.ReceiveAccepts` | src/lib/SessionTaskData.cpp:126-183 | On an uncorrupted log, rxPdo keeps the session in sync. |
| `ProtocolInvariant.LoadActivates` | src/lib/SessionTaskData.cpp:207-217 | After loading a list, every subscribed signal that the guard lets through is active. |
| `SignalLists.ApplyKeeps` | src/lib/Task.cpp:347-367 | A command keeps the lists free of duplicates and changes the listing of its own signal only. |
| `SignalLists.DecodeEncode` | src/lib/Task.cpp:425-431 | Reading a listed signal's size at its computed position from an encoded frame gives back the signal's bytes. |
| `SignalLists.PositionOf` | src/lib/SessionTaskData.cpp:207-209 | The position of a listed signal is the size of everything listed before it. |
| `SignalLists.PositionAbsent` | src/lib/SessionTaskData.cpp:202 | A signal that is not listed has the filler as its position. |
| `SignalLists.FlattenListed` | src/lib/Task.cpp:210-212 | The concatenation of the four lists has each listed signal once. |
| `Common.WidthClass` | src/lib/Task.cpp:231 | The class of an alignment is the one whose width is that alignment. |
| `CommandRings.CommandRing.constructor` | src/lib/Task.cpp:119-126 | A new ring of 2n slots is empty. |
| `CommandRings.CommandRing.Stage` | src/lib/Task.cpp:223-234 | Writing the slot after the write pointer touches no published command that RT has yet to consume. |
| `CommandRings.CommandRing.Publish` | src/lib/Task.cpp:268-275 | Moving the write pointer appends exactly the staged slot to what RT has yet to consume. |
| `CommandRings.CommandRing.Peek` | src/lib/Task.cpp:337-347 | RT sees the oldest command it has not consumed. |
| `CommandRings.CommandRing.Release` | src/lib/Task.cpp:373 | Each command is consumed once and in order. |
| `CommandRings.CommandRing.NewestId` | src/lib/Task.cpp:214 | The slot at the write pointer carries the newest list id. |
| `CommandRings.CommandRing.RoomMeansFewer` | src/lib/Task.cpp:225-229 | The wait condition is equivalent to fewer than 2n - 1 commands waiting. |
| `RtTasks.RtTask.constructor` | src/lib/Task.cpp:137-150 | After rt_init every segment has room for its class and one end marker, and nothing is listed. |
| `RtTasks.RtTask.ProcessSignalList` | src/lib/Task.cpp:335-374 | Consumes the oldest command: RT's lists, id and signalMemSize become those that the command prescribes, and the segments keep their form. |
| `RtTasks.RtTask.InsertAtEnd` | src/lib/Task.cpp:348-357 | Inserting never exceeds the allotment of the segment and leaves the end marker at index signalTypeCount. |
| `RtTasks.RtTask.MoveLastTo` | src/lib/Task.cpp:359-366 | Removing moves the last entry to the position and puts the end marker in its place. |
| `RtTasks.RtTask.CalculateCopyList` | src/lib/Task.cpp:379-393 | The walk up to the end markers lists exactly the subscribed signals in the order of the four lists, and count is their number. |
| `RtTasks.RtTask.CopyData` | src/lib/Task.cpp:411-434 | The walk copies the bytes of exactly the subscribed signals in that order, and count is their total size, which is signalMemSize. |
| `Allotments.SegmentFits` | src/lib/Task.cpp:141-143 | A duplicate-free list of one class is no longer than the number of signals in that class. |
| `Allotments.CommandMovesSize` | src/lib/Task.cpp:356-365 | Adding or subtracting the size of the command's signal keeps the sum of the listed sizes. |
| `NrtTasks.NrtTask.Subscribe` | src/lib/Task.cpp:218-278 | Under the mutex and with room in the ring, the NRT state moves to the outcome that the protocol model gives, and exactly the outcome's command, if any, is published. |
| `NrtTasks.CallableInRuns` | src/lib/Task.cpp:218-230 | In every run of the protocol the task meets what Subscribe asks for, and the ring with as many commands as are pending has room exactly when the model lets the step happen. |
| `Refinement.Start` | src/lib/Task.cpp:137-160 | The tasks and the ring, as they are set up, stand for the initial state of the machine. |
| `Refinement.Consume` | src/lib/Task.cpp:335-374 | In every run, while RT drains and a command waits, processSignalList can be called and is the step by which RT consumes it. |
| `Refinement.DrainsWhileWaiting` | src/lib/Task.cpp:324-326 | The two pointers that rt_update compares differ exactly while a command waits. |
| `Refinement.EmitList` | src/lib/Task.cpp:377-403 | In every run, calculateCopyList is the step that appends a list frame to the log, and that very frame. |
| `Refinement.EmitData` | src/lib/Task.cpp:406-444 | In every run, copyData is the step that appends a data frame to the log, and that very frame. |
| `Refinement.Subscribe` | src/lib/SessionTaskData.cpp:101-111 | In every run, with room in the ring, Task::subscribe for a signal that the session does not have does to task and ring what the session's step does. |
| `Refinement.Unsubscribe` | src/lib/SessionTaskData.cpp:114-120 | The same for a signal that the session leaves. |
| `NrtTasks.NrtTask.Leave` | src/lib/Task.cpp:251-266 | The copy list after a removal shows the swap-removed list, and the moved signal has its new position. |
| `NrtTasks.NrtTask.Join` | src/lib/Task.cpp:236-250 | The copy list after an insertion shows the longer list, within the allotment. |
| `NrtTasks.NrtTask.GetSignalList` | src/lib/Task.cpp:205-215 | The list copied out is the concatenation of the four lists, and the id is the newest published one. |
| `SessionTasks.SessionTaskData.LoadSignalList` | src/lib/SessionTaskData.cpp:197-220 | The loop computes positions, frame size, transferred set and newly activated signals of the loaded list. |
| `SessionTasks.SessionTaskData.ReceivePdo` | src/lib/SessionTaskData.cpp:123-194 | On any log, told by the log alone: a call returns a frame if and only if the first frame behind the session's that is not a list of existing signals is a data frame with the next sequence number and the id of the last list passed over, or of the session's if none was, and then it stands on that one; it goes out of sync if and only if that frame is any other; and otherwise there is none and it ends on the last list. Lists passed over are loaded and activate the signals that their ids allow. |
| `SessionTasks.RxPdoExact` | src/lib/SessionTaskData.cpp:123-194 | Repeating the receive step on any log comes to what the log alone tells of the call. |
| `SessionTasks.SessionTaskData.ReadValue` | src/lib/SessionTaskData.cpp:223-226 | The value read is the slice of the current frame at the signal's position. |
| `SessionTasks.RxPdoIsReceives` | src/lib/SessionTaskData.cpp:123-194 | One call of rxPdo amounts to a sequence of receive steps of the protocol model. |
| `PdoMemory.FramesInside` | src/lib/Task.cpp:377-444 | Every frame of every run lies inside the memory, across wraps. |
| `PdoMemory.FramesSurvive` | src/lib/Task.cpp:102-134 | With m frames asked for, the newest frame overlaps none of its m - 2 predecessors, across wraps, if the list of all signals is at most one word longer than their data. |
| `PdoMemory.StaysIntact` | src/lib/Task.cpp:377-444 | A frame does not touch an earlier one if the memory has room for all frames from that one to it, and once more for the largest, across wraps. |
| `FrameSurvival.SurvivalIff` | src/lib/Task.cpp:102-134 | For any signals and any number m of frames asked for: in all runs in which data follows every list and the first frame is an empty data frame, frames stay intact until m - 2 more have been emitted, if and only if the list of all signals is at most a word longer than their data or there is room for m - 1 frames in turn and a list. |
| `FrameSurvival.IntactInTurn` | src/lib/Task.cpp:322-332 | With that room, no frame touches any of its m - 2 predecessors, since no two lists follow one another. |
| `FrameSurvival.EarlyOverlap` | src/lib/Task.cpp:322-332 | If the first frame and m - 1 more, lists of all signals and their data in turn, exceed the memory, one of these lies over the first list. |
| `FrameSurvival.LateOverlap` | src/lib/Task.cpp:322-332 | If they do not, but there is no room for another list, there is a run in which a list just does not fit at the end of the memory and a frame lies over its predecessor m - 2 frames ago. |
| `FrameSurvival.FillUp` | src/lib/Task.cpp:406-444 | Every place in the memory from the 72nd word on can be where the next frame goes, if some signal has at most eight bytes. |
| `ProtocolMemory.LogIsEmittable` | src/lib/Task.cpp:322-332 | The log of every run of the protocol is such a sequence: the first frame is an empty data frame, data follows every list, and frames have the sizes of the signals subscribed. |
| `ProtocolFrames.Realized` | src/lib/Task.cpp:218-332 | Every such sequence is the log of some run of the protocol, in which one session subscribes and unsubscribes. |
| `ProtocolFrames.LogsSurviveIff` | src/lib/Task.cpp:102-134 | So the condition of FrameSurvival.SurvivalIff is exact for the runs of the protocol. |
| `PdoMemory.FramesStayApart` | src/lib/Task.cpp:377-444 | In a region with room for m frames of the largest size, no frame overlaps any of its m - 2 predecessors. |
| `PdoMemory.PreparedSpace` | src/lib/Task.cpp:116-134 | The region left for frames is aligned and exactly the bytes that getShmemSpace reckons with for them, rounded up to a word. |
| `PdoMemory.TxMemory.PlaceList` | src/lib/Task.cpp:379-402 | A list frame goes where the allocator model puts it. |
| `PdoMemory.TxMemory.PlaceData` | src/lib/Task.cpp:408-443 | A data frame goes where the allocator model puts it. |
| `PdoMemory.Align` | src/lib/Pointer.h:28-40 | Rounding gives the next multiple of the word size, and nothing else. |
| `SchedulerInvariant.BlocksAligned` | src/msrproto/SubscriptionManager.cpp:210-299 | After any run of subscribe, unsubscribe, newSignal, sync, clear and rxPdo, every printed block is complete, its k-th time and the k-th sample of each of its channels stem from the same PDO, these PDOs are one decimation period apart and end with the one that printed, and there is room in every buffer for the next PDO. |
| `SchedulerInvariant.ReceiveKeeps` | src/msrproto/SubscriptionManager.cpp:220-298 | A PDO keeps the invariant of sets, counters, subscriptions and printed blocks, and overruns no buffer. |
| `SchedulerInvariant.SubscribeKeeps` | src/msrproto/SubscriptionManager.cpp:59-75 | Subscribing, also over an existing subscription, keeps the invariant. |
| `SchedulerInvariant.UnsubscribeKeeps` | src/msrproto/SubscriptionManager.cpp:78-112 | Unsubscribing, also what was never subscribed, keeps the invariant. |
| `SchedulerInvariant.RemoveDetaches` | src/msrproto/SubscriptionManager.cpp:171-207 | remove takes the subscription out of its set, drops the set and its counter exactly when they are empty, and touches nothing else. |
| `SchedulerInvariant.ActivateKeeps` | src/msrproto/SubscriptionManager.cpp:144-167 | A subscription that joins a set in the middle of a block keeps the invariant. |
| `SchedulerInvariant.SyncKeeps` | src/msrproto/SubscriptionManager.cpp:302-322 | sync keeps the invariant. |
| `SchedulerInvariant.TickPhase` | src/msrproto/SubscriptionManager.h:80-90 | The counter lets one PDO in each decimation period through; a decimation of zero makes it wrap around. |
| `SchedulerTheorems.InStepForever` | src/msrproto/SubscriptionManager.cpp:255-294 | A client that has a sample for every time of the block under way gets an element in every block printed from then on, whoever joins or leaves. |
| `SchedulerTheorems.PrintedMembers` | src/msrproto/Subscription.cpp:88-103 | A printed block has an element for exactly those members that joined before it began. |
| `SchedulerTheorems.InStepReceive` | src/msrproto/Subscription.cpp:88-103 | Once a block has been printed, every member takes part in the next from its beginning. |
| `SchedulerTheorems.EventThrottling` | src/msrproto/Subscription.cpp:68-85 | In every run that leaves an event channel alone, its elements are at least max(1, T) PDOs apart, and the value held equals the input once that has been constant for max(1, T) PDOs. |
| `SchedulerTheorems.EventRun` | src/msrproto/SubscriptionManager.cpp:234-294 | In every such run a PDO prints the channel exactly if the channel, taken by itself, emits on its value. |
| `SchedulerTheorems.EmitsIff` | src/msrproto/Subscription.cpp:73-78 | A value is emitted if and only if it differs from the one held and T PDOs have passed since the last emission. |
| `SchedulerTheorems.EmissionIsNews` | src/msrproto/Subscription.cpp:73-82 | An emitted value differs from the one held before and is the one held afterwards; any other value leaves it. |
| `SchedulerTheorems.FeedFollowsRule` | src/msrproto/Subscription.cpp:68-85 | The trigger counter implements the rule that looks back at the last emission only. |
| `SchedulerPromises.BlocksAsAsked` | src/msrproto/Subscription.cpp:36-56 | In every run, once a channel has been asked for with reduction d and blocksize b > 0 and is left alone, each of its elements has the b values that the channel had, and the b times, in PDOs d apart, of which the last is the one that printed it. A d of zero stands for 2^64. |
| `SchedulerPromises.BlocksOnTime` | src/msrproto/SubscriptionManager.cpp:220-298 | In every run that leaves an active channel alone and does not synchronise, its blocks come in exactly those PDOs in which they are due. |
| `SchedulerPromises.DueIff` | src/msrproto/SubscriptionManager.h:80-90 | These are the first after as many PDOs as are due, and then one in every b * d. |
| `SchedulerPromises.FirstDue` | src/msrproto/SubscriptionManager.cpp:144-167 | For the first channel with its reduction and blocksize, in a group without another of that reduction, b * d PDOs are due when it becomes active. |
| `SchedulerPromises.EventsAsAsked` | src/msrproto/Subscription.cpp:36-85 | In every run, once an event channel has been asked for with reduction d, has become active and is left alone, a PDO brings an element, which is its value, exactly if the rule for reductions emits there, starting from zeros; so elements are at least max(1, d) PDOs apart, and the value held is the input once that has been constant for max(1, d) PDOs. |
| `SchedulerControl.BlocksArrive` | src/msrproto/SubscriptionManager.cpp:220-298 | In every run that leaves an active channel alone and does not synchronise, it has an element in exactly those PDOs in which a block is due; only in the first of these it has none, if it joined in the middle of that block. |
| `SchedulerControl.JoinIff` | src/msrproto/SubscriptionManager.cpp:136-168 | In every run, a channel that becomes active takes part from the beginning of a block if and only if none is under way in its set, and the first with its reduction in its group is due after b * d PDOs, whatever was subscribed and dropped before. |
| `SchedulerControl.QuietUntilActive` | src/msrproto/SubscriptionManager.cpp:59-133 | In every run, once a channel has been asked for anew or left, or everything has been dropped, nothing is printed for it until it becomes active. |
| `SchedulerControl.SyncStartsOver` | src/msrproto/SubscriptionManager.cpp:301-322 | In every run, blocks printed after sync have no samples from before. |
| `SchedulerControl.SyncPutsOff` | src/msrproto/SubscriptionManager.cpp:301-322 | After sync every member takes part from the beginning, and its block is due later by one period for every sample it had. |
| `SubscriptionManagers.SubscriptionManager.RxPdo` | src/msrproto/SubscriptionManager.cpp:220-298 | For each PDO, the nested loops over groups, decimations, blocksizes and subscriptions, in any order, come to the one simultaneous step of the model; in the quiet mode nothing changes. |
| `SubscriptionManagers.SubscriptionManager.Busy` | src/msrproto/SubscriptionManager.h:84-88 | Reloads and decrements the counter; busy unless it is zero then. |
| `SubscriptionManagers.SubscriptionManager.SampleMembers` | src/msrproto/SubscriptionManager.cpp:255-266 | Every member takes its value once, and the queue has exactly those to be printed. |
| `SubscriptionManagers.SubscriptionManager.PrintQueue` | src/msrproto/SubscriptionManager.cpp:291-293 | Every queued subscription is printed if its block is full, and reset in any case. |
| `SubscriptionManagers.SubscriptionManager.TakePdo` | src/msrproto/SubscriptionManager.cpp:238-295 | One set's turn: time, samples, printed block and reset. |
| `SubscriptionManagers.SubscriptionManager.Remove` | src/msrproto/SubscriptionManager.cpp:171-207 | Removes a subscription from its set as the model does. |
| `SubscriptionManagers.SubscriptionManager.Subscribe` | src/msrproto/SubscriptionManager.cpp:59-75 | Replaces or adds the subscription as the model does; what it is good for is the subject of `SchedulerPromises`. |
| `SubscriptionManagers.SubscriptionManager.Unsubscribe` | src/msrproto/SubscriptionManager.cpp:78-112 | Removes the subscription as the model does. |
| `SubscriptionManagers.SubscriptionManager.NewSignal` | src/msrproto/SubscriptionManager.cpp:136-168 | Activates all subscriptions to the channels of a signal and no others, and leaves blocks under way as they are. |
| `SubscriptionManagers.SubscriptionManager.Sync` | src/msrproto/SubscriptionManager.cpp:302-322 | Starts all blocks over as the model does. |
| `SubscriptionManagers.SubscriptionManager.Clear` | src/msrproto/SubscriptionManager.cpp:115-133 | Drops everything. |
| `XmlRoundTrip.RoundTrip` | src/msrproto/XmlParser.cpp:120-317 | Childless elements, printed and fed to the scanner in any pieces, are found again, all of them, in order and no others; each gives back its tag and, through getString, every attribute value. Tags and names are legal and told apart ignoring case, values have no NUL, and no tag begins with starttls. |
| `XmlParser.ChunksDoNotMatter` | src/msrproto/XmlParser.cpp:120-296 | For any text in which no quoted value is followed by more than one character before the next space or '>', cutting the text changes neither the elements found nor the state left behind; that this is necessary too is CutsIff. |
| `XmlParser.CutsIff` | src/msrproto/XmlParser.cpp:120-296 | However much of a text has been received, and in whatever pieces, elements and state are those of the uncut text, if and only if the text is such that no quoted value is followed by more than one character before the next space or '>'. |
| `XmlParser.UntidyBreaks` | src/msrproto/XmlParser.cpp:248-260 | In any other text there is a place where cutting once makes a difference as soon as one more character has come. |
| `XmlParser.Resumption` | src/msrproto/XmlParser.cpp:122-295 | Under the same condition, stopping where the text runs out and going on with more equals having had it all. |
| `XmlRoundTrip.CutsMayMatter` | src/msrproto/XmlParser.cpp:248-260 | A text with two characters after a closing quote gives different elements depending on where it is cut. |
| `XmlRoundTrip.PrintedRead` | src/msrproto/XmlParser.cpp:128-260 | The scanner finds exactly the printed elements in a printed text, and printed text meets the condition on cuts. |
| `XmlRoundTrip.AttributesRead` | src/msrproto/XmlParser.cpp:197-260 | Printed attributes are read in order, with names and values in place and ended. |
| `XmlRoundTrip.FindAt` | src/msrproto/XmlParser.cpp:305-317 | find gives the first attribute whose name is equal ignoring case. |
| `XmlParser.StepAdvances` | src/msrproto/XmlParser.cpp:122-293 | Every turn of the parser's loop advances or hands over to a state that will, so that it ends. |
| `XmlParser.DrainIsRuns` | src/msrproto/XmlParser.cpp:120-296 | Calling the parser until it finds no more amounts to scanning all of the text. |
| `XmlElement.UnescapeEscape` | src/msrproto/XmlElement.cpp:109-142 | Decoding an escaped value gives back the value. |
| `XmlElement.EscapedChars` | src/msrproto/XmlElement.cpp:111-136 | An escaped value contains none of the characters that could end it. |
| `XmlElement.SetEscaped` | src/msrproto/XmlElement.cpp:109-142 | The loop appends the escaped value. |
| `XmlElement.Decode` | src/msrproto/XmlParser.cpp:369-404 | The loop of getString replaces the five entities from left to right; text in which none starts, also with an '&', stays as it is. |
| `XmlElement.PlainDecoded` | src/msrproto/XmlParser.cpp:397-400 | Text in which no entity starts, also with an '&', is left as it is in front of any other. |
| `XmlElement.NoEntities` | src/msrproto/XmlParser.cpp:397-400 | A text in which none of the five entities starts decodes to itself. |
| `XmlElement.EntityDecoded` | src/msrproto/XmlParser.cpp:376-396 | Each of the five entities gives its character, and what follows is decoded by itself. |
| `XmlReading.PiecesArrive` | src/msrproto/XmlParser.cpp:120-296 | Text of well-formed elements with rubbish between them, in any pieces, is reported as those elements in order and no others. Attributes have no value, one without quotes or one in quotes of either kind, elements end with '>' or '/>'; rubbish is text without '<', a '<' that no letter follows, and elements given up where an attribute should start. |
| `XmlReading.ElementGiven` | src/msrproto/XmlParser.cpp:128-296 | Each such element is reported at its end, with its tag and its attributes, in order and no more. |
| `XmlReading.GivenIsTold` | src/msrproto/XmlParser.cpp:305-405 | Asked for a key in any mix of small and capital letters, it gives the decoded value of the first attribute of that name, and none for a flag. |
| `XmlReading.SameIff` | src/msrproto/XmlParser.cpp:305-317 | Two names are the same if they have the same letters in the same places, small or capital. |
| `XmlReading.StartTls` | src/msrproto/XmlParser.cpp:207-292 | A tag that begins with starttls is reported at the end of its line, and not at all if something else follows. |
| `XmlElement.PrintOne` | src/msrproto/XmlElement.cpp:38-88 | Constructor, attributes and destructor of a childless element print it as the model does. |
| `XmlBuffer.Parser.MoveData` | src/msrproto/XmlParser.cpp:94-111 | Moving the data to another place keeps the window on the stream and the pointers to names and values; null pointers are shifted like all others, and by how much since they were recorded is known. |
| `XmlBuffer.Allocate` | src/msrproto/XmlParser.cpp:72 | New memory is not null and does not overlap the buffer in use. |
| `XmlBuffer.Parser.Read` | src/msrproto/XmlParser.cpp:54-91 | Reading appends a prefix of the input to the stream, at least one byte of it, without touching the state of the scan. The parser becomes invalid exactly if the buffer is full, must not grow and starts with the last name, in which case the text received since that name's '<' has the length of the limit, whether or not its element is over. |
| `XmlBuffer.Parser.Next` | src/msrproto/XmlParser.cpp:120-296 | The loop over the buffer, with strings ended in place, amounts to one run of the scanner over the stream. |
| `XmlBuffer.Parser.HandleAll` | src/msrproto/XmlParser.cpp:120-302 | Handling elements until there are none drains the stream; each element found is asked, while it is current, for its tag and for the values of any keys, and answers what the model says, or strays from a flag. |
| `XmlBuffer.Parser.Serve` | src/msrproto/XmlParser.cpp:54-91 | Reading and handling input, cut as the room in the buffer has it, amounts to feeding the scanner those pieces: the elements told of are those found, with tags and values. The parser becomes invalid only if, of the text taken in, as much as the limit stands behind the last '<' of an element, and, from a full or new buffer on, exactly if Overflows says so. |
| `XmlBuffer.OverflowStep` | src/msrproto/XmlParser.cpp:54-91 | One read of all that there is room for keeps the answer to whether the parser will give up; taking in the rest means that it will not. |
| `XmlBuffer.Parser.FindAttribute` | src/msrproto/XmlParser.cpp:305-317 | The loop finds the attribute that the model finds. Its value pointer is null if and only if it has no value and has not been moved since it was recorded; a value that is there is pointed to. |
| `XmlBuffer.Parser.GetValue` | src/msrproto/XmlParser.cpp:360-405 | The value decoded from the buffer is that of the model if and only if the attribute has a value or has not been moved since it was recorded; otherwise a pointer outside the buffer is followed. |
| `XmlBuffer.Parser.Ask` | src/msrproto/XmlParser.cpp:298-405 | The tag and the values of any number of keys of the current element are those of the model. |
| `XmlSession.Converse` | src/msrproto/XmlParser.cpp:54-405 | Childless legal elements, printed and sent in any pieces through the buffer that is read into, shifted and grown, are all told of in order and no others, each with its tag and every attribute value asked for, and the parser is not invalid at the end, as long as each element by itself is shorter than the limit. |
| `XmlSession.ShortFits` | src/msrproto/XmlParser.cpp:64 | The bound on single elements holds in particular if all of the text is shorter than the limit. |
| `XmlSession.FittingIsRoomy` | src/msrproto/XmlParser.cpp:54-91 | Wherever the text of such elements is cut, less than the limit stands behind the last '<' of an element. |
| `XmlSession.RoomySuffices` | src/msrproto/XmlParser.cpp:54-91 | For any text of which that is true and in which cuts do not matter, the condition for giving up never arises, in whatever pieces it is taken in. |
| `XmlSession.GiveUp` | src/msrproto/XmlParser.cpp:64-67 | The parser becomes invalid on a text sent in one go, in which cuts do not matter, if and only if the text is too long: at some point the buffer is full, may not grow and starts with the last name. TooLong says so in terms of the names in the text alone. |
| `XmlSession.OverflowsIff` | src/msrproto/XmlParser.cpp:54-91 | Where the buffer is moved and grown depends on the text only by where its names are. |
| `XmlSession.TooLongBounds` | src/msrproto/XmlParser.cpp:54-67 | A text is too long if somewhere at least the size of the largest buffer stands between a name and what makes the next one known, and only if somewhere at least that size less one byte does. |
| `XmlSession.FinishedTooLong` | src/msrproto/XmlParser.cpp:54-67 | The element and blanks of FinishedYetTooLong, with anything behind them, are too long for a limit of 1024. |
| `XmlSession.FinishedYetTooLong` | src/msrproto/XmlParser.cpp:54-67 | With a limit of 1024, an element of three characters and 1021 blanks make the parser invalid on whatever follows, although the element has been told of and none is under way. |
| `XmlSession.FlagGoesAstray` | src/msrproto/XmlParser.cpp:94-111 | An attribute without a value, recorded before the buffer grows, gives a stray pointer instead of none when its value is asked for. |
| `Base64.DecodeEncode` | src/msrproto/XmlElement.cpp:166-198 | Decoding after section 4 of RFC 4648 gives back every byte string. |
| `Base64.EncodeShape` | src/msrproto/XmlElement.cpp:166-198 | The length is four for every three bytes begun, and padding stands at the end only, as much as bytes are missing. |
| `Base64.EncodedAs` | src/msrproto/XmlElement.cpp:166-198 | Each character is the letter of Table 1 of RFC 4648 for its six bits of the data, which zeros follow, or padding if none of them is left. |
| `Base64.DigitIsLetter` | src/msrproto/XmlElement.cpp:168-171 | The digits are those of that table. |
| `Base64.Append` | src/msrproto/XmlElement.cpp:174-197 | The loop over groups of three bytes and the remainder appends the encoding. |
| `Directory.AllFound` | src/msrproto/DirectoryNode.cpp:253-272 | After any insertions, collisions included, find(path(), 1) gives the node itself for every node but the root, as long as no number is handed out twice. |
| `Directory.FindPath` | src/msrproto/DirectoryNode.cpp:253-272 | In every tree, find(path(), 1) gives the node itself for every node but the root. |
| `Directory.FindIs` | src/msrproto/DirectoryNode.cpp:253-272 | For any text, find goes down by the words between separators, however many of these stand in a row or at the end, and finds nothing if a separator or nothing at all is where it starts. |
| `Directory.ComponentsAreWords` | src/msrproto/DirectoryNode.cpp:143-171 | Splitting any path gives its words. |
| `Directory.DecimalIs` | src/msrproto/HyperDirNode.cpp:39-48 | Numbers are named by their decimal digits, without leading zeros. |
| `Directory.InsertPathIff` | src/msrproto/DirectoryNode.cpp:130-156 | An insertion keeps child maps and parent pointers in agreement if and only if the number it needs, if any, is free. |
| `Directory.NumberTwice` | src/msrproto/HyperDirNode.cpp:39-48 | After the insertions of "a", "a" and "a/3" the number that one more "a" needs is taken, and the tree is lost. |
| `Directory.InsertPathPlaces` | src/msrproto/DirectoryNode.cpp:130-139 | The new node is reached by the names asked for, and by one more number exactly if these led to a node already. |
| `Directory.InsertKeeps` | src/msrproto/DirectoryNode.cpp:66-75 | Inserting under a name keeps the tree, whether the name is free, stands for a node or for a hyper node. |
| `Directory.CollisionKeeps` | src/msrproto/DirectoryNode.cpp:174-181 | Putting a hyper node in the place of a node and both below it keeps the tree. |
| `Directory.TakenNumberLoses` | src/msrproto/HyperDirNode.cpp:39-48 | When the number is in use, the node that has it is lost from the tree. |
| `Directory.AttachKeeps` | src/msrproto/DirectoryNode.cpp:184-190 | Adopting a new child keeps the tree. |
| `Directory.ComponentsOfRest` | src/msrproto/DirectoryNode.cpp:143-171 | Splitting a path made of names gives back the names. |
| `Directory.DirectoryTree.PathInsert` | src/msrproto/DirectoryNode.cpp:143-156 | Splits the path and goes down it as the model does; the tree stays valid if the number needed is free. |
| `Directory.DirectoryTree.Create` | src/msrproto/DirectoryNode.cpp:59-63 | Gives the directory of that name, made if need be. |
| `Directory.DirectoryTree.SplitPath` | src/msrproto/DirectoryNode.cpp:146-153 | The loop gives the non-empty components. |
| `Directory.DirectoryTree.Lookup` | src/msrproto/DirectoryNode.cpp:260-272 | Walks down the path as the model does. |
| `SharedMemory.PreforkInit` | src/lib/Main.cpp:485-633 | The areas follow one another without overlap, wherever the memory is mapped, and the check for ENOMEM never fires. |
| `SharedMemory.ParametersDisjoint` | src/lib/Main.cpp:591-599 | No two parameters share a byte. |
| `SharedMemory.ParameterAligned` | src/lib/Main.cpp:521-541 | Every parameter is aligned to its type if every type's size is a multiple of its alignment. |
| `SharedMemory.UnpaddedMisaligns` | src/lib/Main.cpp:531-541 | Two parameters of any type whose size is not a multiple of its alignment: the second is misaligned. |
| `SharedMemory.AlignedIff` | src/lib/Main.cpp:521-541 | Parameters of given types are all aligned, in whatever number and order, if and only if the size of each type is a multiple of its alignment. |
| `SharedMemory.ParametersInside` | src/lib/Main.cpp:536-545 | All parameters lie within the bytes reserved for them. |
| `SharedMemory.CountBytes` | src/lib/Main.cpp:527-541 | The two loops give the start of every class and the total. |
| `SharedMemory.PlaceParameters` | src/lib/Main.cpp:591-599 | The loop gives every parameter its place in its class. |
| `SharedMemory.PlaceTasks` | src/lib/Main.cpp:604-610 | The areas of the tasks follow one another, each as large as asked for. |
| `ParameterChange.Main.SetValue` | src/lib/Main.cpp:364-404 | Writes, asks and rolls back as the model does; the bytes written stay when the exchange itself fails. |
| `ParameterChange.Main.HandleRequest` | src/lib/Main.cpp:699-716 | The real-time side takes over the bytes exactly if the callback answers 0. |
| `ParameterChange.SyncKeptIff` | src/lib/Main.cpp:385-401 | The two copies stay equal if and only if the answer got back, the change was made all the same, or there was nothing to change. |
| `ParameterChange.AnsweredIsAtomic` | src/lib/Main.cpp:397-403 | An answered change is made on both sides or on neither, to the bytes asked for and to no other parameter. |
| `ParameterChange.ChangedBytes` | src/lib/Main.cpp:364-404 | In shared memory exactly the bytes asked for are new, unless RT is known to have refused; those of RT are new exactly if the request has reached it and the callback has answered 0. |
| `ParameterChange.LastWriteCounts` | src/lib/Main.cpp:364-404 | After any series of changes, every byte in shared memory is the last that was written and is not known to be refused, and every byte of RT the last that it took over. |
| `ParameterChange.AnsweredRunsKeepSync` | src/lib/Main.cpp:591-599 | As long as every change is answered, the copies of all parameters stay equal. |
| `Notification.PruningIsExact` | src/msrproto/Parameter.cpp:73-88 | For an array of a primary type, an element is told of a change exactly if the change meets its bytes, and the whole whenever an element is. |
| `Notification.ElementsSideBySide` | src/DataType.h:185-221 | The elements stand side by side in row-major order and partition the bytes of the whole. |
| `Notification.ChildrenAre` | src/msrproto/Server.cpp:390-411 | An array has one variable for each element, in row-major order, exactly if it has more than one, is itemized and is not hidden. |
| `Notification.OneElementPerByte` | src/msrproto/Server.cpp:390-411 | Every byte of an itemized array belongs to exactly one element. |
| `Notification.InformedIsOverlap` | src/msrproto/Parameter.cpp:81-85 | Breaking off at the first child behind the change loses none, given that the children are in order. |
| `Notification.Inform` | src/msrproto/Parameter.cpp:73-88 | The whole is told exactly if it is met, and then the children up to the first behind the change. |
| `EventRing.ReceivedInOrder` | src/Main.cpp:549-566 | In every run from an empty ring in which a session never falls a whole ring behind, it has received exactly the events raised from its first call on, once and in order, one for each later call at which there was one left. |
| `EventRing.PollDelivers` | src/Main.cpp:549-566 | A call delivers the next event if there is one, and only then. |
| `EventRing.RaiseKeeps` | src/Main.cpp:501-506 | Raising an event keeps all events that the session may still ask for. |
| `EventRing.LaggingPoll` | src/Main.cpp:549-566 | A session any number of events behind is told nothing if these are whole rings; otherwise it gets the newest event in the place of the next one, which is the next one if and only if it is less than a ring behind. |
| `EventRing.DeliveredIff` | src/Main.cpp:553-559 | After an event is raised, the next call delivers the event that the session waits for if and only if the session is not a whole ring behind; otherwise it delivers nothing. |
| `EventRing.HistoryIsRecent` | src/Main.cpp:569-583 | The non-null entries of the history are the last events, in order, as many as the ring holds, up to those that the session has yet to receive; for one that has yet to receive events from before the ring started over, they are all that the ring holds, and then the oldest of these once more. |
| `EventRing.EventList.NewEvent` | src/Main.cpp:487-506 | Stores the event and moves on as the model does. |
| `EventRing.EventList.GetNextEvent` | src/Main.cpp:549-566 | Reads and moves the session on as the model does; a session that asks for the first time starts behind the events raised so far. |
| `OutputBuffer.Session.Flush` | src/Session.cpp:149-203 | Nothing is done after a failure or if the buffer is empty. Else the socket is called, once if partial, and otherwise until the buffer is empty or it takes nothing; the bytes sent are what these calls take, the rest stays, and the session has failed exactly if the last answer was an error other than EAGAIN and EINTR. |
| `OutputBuffer.Session.Xsputn` | src/Session.cpp:120-137 | What was sent followed by what is buffered is the concatenation of all bytes accepted; fewer than all are accepted only after the socket has failed; and the socket is called only with a full buffer, and is called if it gets full. |

## Left out

- Sockets, threads, select loops, fork, pipes, logging and configuration; clocks and statistics fields of frames.
- TLS: the output buffer is modelled in the plain-text state only.
- Persistence, the buddy process and `src/etlproto`.
- Conversion and printing of numbers, and the sample-time to reduction conversion.
- Compound data types in the iterator and in notification.
- Weak memory ordering: barriers count as sequentially consistent.
- Wrap-around of 32-bit list ids and sequence numbers: they are unbounded.
- Torn reads by a session that has fallen behind the frame memory: such a session takes the Desync step instead.
- Liveness of the spin waits: waiting is a step that is not enabled.
- Bounds checks of `rxPdo` on frame addresses: frames are entries of a log there, and their places are the subject of `PdoMemory.FramesInside`.
- ProtocolTheorems.CatchUpOnDataFrame: stated for the log, in which frames stay; in memory the frame is overwritten in time, and what a session then reads is not modelled.
- ProtocolTheorems.StrandedForever: the same.
- Sessions that are destroyed with subscriptions left, and the persistent pseudo-session.
- RtTasks.RtTask.constructor: the four segments are sequences of their own, not parts of one array, so aliasing between them is not modelled.
- SubscriptionManagers.SubscriptionManager.RxPdo: subscriptions are values kept by channel and group; their identity as heap objects, the order of the walk by address and the linked print queue are not modelled; PDOs skipped in the quiet mode do not count as PDOs.
- Subscriptions keep samples as whole values, not bytes at offsets in one buffer; the field `taken` and `stamps` record which PDO a sample stems from and are read by nothing else.
- XmlRoundTrip.RoundTrip: elements with children are not covered; the buffer and its limit are the subject of `XmlSession.Converse`.
- XmlBuffer.Parser.GetValue: addresses are integers without a width, and what a stray pointer reads is not modelled, only that it does not lead into the buffer.
- The parser state `FindNameEnd`, which nothing enters, and attribute access other than `find` and `getString`.
- `traditionalPathInsert`, which reads attributes out of path names, and `list`.
- Directory.DirectoryTree.PathInsert: nodes are known by number instead of by address, and paths have at least one component.
- OutputBuffer.Session.Xsputn: the socket's answers are any finite sequence, after which writing fails.
