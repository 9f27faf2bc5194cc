# A verified model of the SIL kernel

This project models the kernel of a deterministic software-in-the-loop runner and proves what
its bit-identical Recordings rest on. `dafny verify dfyconfig.toml` checks all of it with
Dafny 4.11.

The model has two layers. The first is a set of functions on values: what one publish, one
callback, one slot and one whole run do, with participants as arbitrary deterministic programs,
so that every theorem holds for every participant. The second is the program's own form:
classes with fields and loops (`InterceptorPlan`, `SubscriberRoute`, `MessageBus`,
`RecordedSource`, `Kernel`, `Region`, `Codec`, `Reader`, `ObservationLog`,
`DurationDistribution`), each method proved against the first layer.

| files | what they model |
|---|---|
| `VirtualTime`, `Arithmetic`, `Bytes` | 64-bit virtual time; shared facts about products and quotients; copying into a byte region |
| `Interceptor`, `PlanRuntime` | the fault plan of a channel and a subscriber's queue |
| `DataPlane`, `Merge`, `Activation` | publish and take, the merge of a Step's inputs, one participant callback |
| `Schedule`, `ScheduleProofs`, `SlotProofs` | the slot loop: which instant opens, what runs in it, in which order, until when |
| `Engine`, `EngineProofs` | whole runs with participants and replayers |
| `Sight`, `Moves`, `SlotOrder`, `Crowding` | what a callback can see and do in a slot; every order of a slot's activations; queue bounds |
| `EngineOrder`, `RunOrder` | the agenda, slots and whole runs under two assignments of priorities |
| `Feedthrough`, `Interleaving` | when participants can tell the order: exactly, within a slot and in a later one |
| `Setup`, `SetupProofs`, `ManifestOrder` | what a manifest registers, what it then guarantees, and when its priorities are free |
| `RunLog`, `Hearing` | a run as the callbacks of its log; two priorities whose runs differ |
| `EngineRuntime`, `KernelRuntime` | the engine as objects and loops |
| `Arena`, `Base64`, `StepCodec`, `StepCodecRuntime` | the Step protocol's payload path |
| `LineReader` | the bounded reader of protocol lines |
| `Observer` | the concurrent source-scope observer, over all interleavings |
| `Manifest` | schema sizes, compiled fault plans, the one-publisher check |
| `Rounding`, `Statistics`, `ObservationStream` | diagnostics: a correctly rounded mean, streaming statistics, the bounded log |

What carries most weight:

- Execution order. Inside a slot any two orders of the activations, tasks and replayers alike, that keep
  each participant's own order end alike (`EngineOrder.EngineOrderIndependence`), because each participant
  does exactly what it would do alone (`SlotOrder.EachPlaysAlone`). This needs that nobody hears in the slot
  what is published in it, and `Feedthrough.InterchangeableIff` shows that for two participants this is not
  only enough but necessary. The comment at kernel/src/engine.hpp:91-92 promises more than the code keeps:
  a later merge tells a participant which of two messages was published first exactly when it can take both
  (`Interleaving.InterleavingIsTold`). Where every merging participant hears one publisher, priorities are
  free for whole runs (`ManifestOrder.PrioritiesAreFree`): the run of a manifest with other priorities ends
  alike exactly when it crowds no queue. Without that condition they are not: `Hearing.PrioritiesAreHeard`
  says when two runs end in different memories, `Hearing.PrioritiesAreNotFree` gives two.
- `KernelRuntime.SetUpAndRun`: setup accepts a manifest exactly when every channel has one publisher,
  periods are positive and routes name known channels; the engine it builds is the one the manifest
  declares, its run ends, and unless it failed it made exactly the declared activations in declared order,
  its Recording agrees with every subscriber, and every replayed Recording without faults came out again.
- `SlotProofs.SlotTimesIncreaseIff`: slot times increase exactly when the replayed streams do;
  the other results about runs hold without that assumption.
- `Interceptor.StreamSemantics`, `StepCodec.CodecRoundTrip`, `Observer.Safety`,
  `Rounding.CorrectlyRoundedQuotient`, `Manifest.PlanPatchesFields`, `ObservationStream.ClosedStream`.

## Model

| member | source | states |
|---|---|---|
| `VirtualTime.VirtualTimeAfter` | kernel/src/virtual_time.hpp:20-24 | the sum when 64 bits hold it, nothing otherwise |
| `VirtualTime.SaturatingAfter` | kernel/src/interceptor.cpp:43-44 | a delay saturates at the largest instant |
| `Interceptor.DelayPassIsMin` | kernel/src/interceptor.cpp:37-45 | saturating one delay at a time is saturating their exact sum once |
| `Interceptor.Apply` | kernel/src/interceptor.cpp:20-61 | a visible message is inside the run, not before its publish time, and keeps its length |
| `Interceptor.ApplyMeaning` | kernel/src/interceptor.cpp:20-61 | a message is visible exactly when no stage drops it, its time plus the exact sum of matching delays is inside the run and every patch fits; only counters of the plan change |
| `Interceptor.StagesCons` | kernel/src/interceptor.cpp:29-34 | running all drop stages on one message at a time is running one stage at a time over the stream |
| `Interceptor.StreamSemantics` | kernel/src/interceptor.cpp:20-61 | over any stream the survivors are those of the drop stages composed in declared order, each drop_nth counting only what reaches it, shifted by the exact delay sum, cut at the duration, then patched |
| `Interceptor.DelayOrderIsIrrelevant` | kernel/src/interceptor.cpp:37-45 | permuting the delays of a plan changes no delivered message, time or byte |
| `PlanRuntime.InterceptorPlan.constructor` | kernel/src/interceptor.cpp:11-13 | the plan holds the given steps and duration |
| `PlanRuntime.InterceptorPlan.Copy` | kernel/src/interceptor.cpp:15-18 | a copy has the same steps with every window counter at zero |
| `PlanRuntime.InterceptorPlan.DropLoop` | kernel/src/interceptor.cpp:29-34 | the loop updates the counters and decides as the drop pass of the model |
| `PlanRuntime.InterceptorPlan.DelayLoop` | kernel/src/interceptor.cpp:37-45 | the loop yields the visible time of the delay pass |
| `PlanRuntime.InterceptorPlan.OverrideLoop` | kernel/src/interceptor.cpp:51-59 | the message buffer ends as the override pass says; refusal exactly where a patch does not fit |
| `PlanRuntime.InterceptorPlan.Apply` | kernel/src/interceptor.cpp:20-61 | counters, verdict and the bytes in place are those of the model; a suppressed message is left as it was |
| `PlanRuntime.SubscriberRoute.VisibleAt` | kernel/src/engine.hpp:83-103 | true exactly when the front exists and its visible instant, if representable, has come |
| `PlanRuntime.SubscriberRoute.Pop` | kernel/src/engine.hpp:107-111 | the front moves from pending to taken |
| `PlanRuntime.SubscriberRoute.Push` | kernel/src/engine.hpp:113-120 | appended, dropped as newest, or refused, each exactly under its policy, and never past the capacity |
| `DataPlane.DeliverPushesEach` | kernel/src/engine.cpp:163-181 | a delivery that succeeds met no overflow and reached every route of the channel and no other |
| `DataPlane.PublishKeepsAgreement` | kernel/src/engine.cpp:140-182 | a publish keeps Recording, routes, channel numbers and publish order in agreement |
| `DataPlane.TakeKeepsAgreement` | kernel/src/engine.cpp:184-189 | so does a take |
| `DataPlane.LosslessRoute` | kernel/src/engine.cpp:140-189 | a route that dropped nothing has taken and pending equal to its channel's recorded stream |
| `Merge.MergeTakesReleasedPrefixes` | kernel/src/process_participant.cpp:716-730 | each route of the participant gives up exactly its longest prefix of released messages, in order; a delayed front blocks what is behind it; other routes are untouched |
| `Merge.MergeInputsBelong` | kernel/src/process_participant.cpp:719-730 | every input was pending on one of the participant's routes |
| `Merge.MergeIsOrdered` | kernel/src/process_participant.cpp:719-730 | the input list strictly increases in global publish order |
| `Merge.AgreementOrdersRoutes` | kernel/src/engine.cpp:151-182 | in agreement the participant's pending messages are in publish order, as the merge needs |
| `Activation.ActivateKeepsAgreement` | kernel/src/engine.cpp:266-271 | a callback of any program that finishes keeps the agreement |
| `Schedule.Skip` | kernel/src/replayer.cpp:83-89 | stops at the first message of a replayed channel inside the run and passes no such message |
| `Schedule.NextSlot` | kernel/src/engine.cpp:210-217 | a lower bound of everything due that something attains, or the largest instant when nothing is due |
| `ScheduleProofs.AgendaMeaning` | kernel/src/engine.cpp:227-253 | a slot runs exactly its due tasks and every replayer, each once, the due part in (priority, registration index) order |
| `ScheduleProofs.RunItemsEffect` | kernel/src/engine.cpp:246-282 | running a slot's list advances exactly its due tasks, drains exactly the replayers in it and logs activations in list order |
| `ScheduleProofs.AdvanceOk` | kernel/src/engine.cpp:272-281 | a task is done exactly when its next instant is past the run, however close to 2^64 |
| `ScheduleProofs.CompletedSchedule` | kernel/src/engine.cpp:206-283 | the log of a completed run is strictly sorted by (time, priority, registration index) and holds exactly the declared instants inside the run |
| `SlotProofs.StopsWhenCompleted` | kernel/src/engine.cpp:210-217 | the loop stops exactly when nothing is left |
| `SlotProofs.DrainPicks` | kernel/src/replayer.cpp:96-107 | draining a replayer passes exactly the run of selected messages stamped now |
| `SlotProofs.SlotShrinksWork` | kernel/src/engine.cpp:208-283 | every iteration strictly reduces remaining activations plus remaining selected messages, for any recordings |
| `SlotProofs.RunEnds` | kernel/src/engine.cpp:208-283 | the loop completes within as many slots as there is work |
| `SlotProofs.SlotTimesIncreaseIff` | kernel/src/engine.cpp:208-283 | slot times of a completed run strictly increase if and only if every selected stream is non-decreasing |
| `EngineProofs.PublishDueDrains` | kernel/src/replayer.cpp:96-107 | publishing moves the cursor as draining does |
| `EngineProofs.RunFollowsControl` | kernel/src/engine.cpp:206-283 | no participant program can change the schedule of a run that has not failed |
| `EngineProofs.RunKeepsAgreement` | kernel/src/engine.cpp:206-283 | every unfailed state between slots is in agreement, for all participants |
| `EngineProofs.EveryRunEnds` | kernel/src/engine.cpp:206-283 | every run fails or completes, for all participants and recordings |
| `EngineProofs.RunRefinesSchedule` | kernel/src/engine.cpp:206-283 | the activation log of an unfailed run is the declared schedule |
| `EngineProofs.ReplayFidelity` | kernel/src/replayer.cpp:83-107 | the new Recording on a replayer's channels is the stored one filtered to its channels and to times inside the run, in stored order even where times descend |
| `EngineProofs.EveryRunKeepsDeclarations` | kernel/src/engine.cpp:206-283 | failed or not, a run leaves every task's offset, period, priority and index and every replayer's declaration as they were |
| `Sight.AlikeMerge` | kernel/src/process_participant.cpp:716-730 | two states in which a participant can take the same messages in the same global order give it the same inputs |
| `Moves.ActivateMoves` | kernel/src/engine.cpp:266-271 | whatever its program, a callback only pops what was in sight from its own routes and appends, on its own channels, messages nobody in the slot can take yet |
| `Moves.ActivateAlike` | kernel/src/engine.cpp:140-189 | from two buses a participant cannot tell apart its callback finishes or fails alike, with the same memory, pops, recorded messages and number of publishes |
| `SlotOrder.EachPlaysAlone` | kernel/src/engine.cpp:246-282 | in a list of activations that did not fail every participant saw and did exactly what it would have seen and done alone |
| `SlotOrder.FailsAlone` | kernel/src/engine.cpp:246-282 | a list of activations fails only if one of its participants would fail alone |
| `SlotOrder.AllSpent` | kernel/src/engine.cpp:151-153 | global_seq advances by what the participants use up alone |
| `SlotOrder.AnyOrder` | kernel/src/engine.cpp:246-282 | on unbounded queues two orders that agree on each participant's own end alike, the second unfailed if the first is |
| `Crowding.OpenedActs` | kernel/src/engine.hpp:113-120 | as long as no publish meets a full queue, a slot runs as with unbounded queues |
| `Crowding.ActsLose` | kernel/src/engine.hpp:113-120 | an unfailed list of activations loses a message exactly when some publish met a full queue |
| `Crowding.RoomyOrder` | kernel/src/engine.cpp:246-282 | if one order neither fails nor meets a full queue, another ends unfailed and alike exactly when it meets none either |
| `EngineOrder.ReplayRecites` | kernel/src/replayer.cpp:96-107 | a replayer's turn is the activation of a program that publishes its due messages |
| `EngineOrder.PerformAllIsActs` | kernel/src/engine.cpp:246-282 | a slot's list of tasks and replayers is that list of activations, failures included |
| `EngineOrder.EngineOrderIndependence` | kernel/src/engine.cpp:246-282 | any two orders of a slot's tasks and replayers that agree on each participant's own: memories, task and replayer states, activation instants, messages on every route, number of publishes and the Recording publisher by publisher are the same and the second does not fail, exactly when the second meets no full queue |
| `EngineOrder.OwnAgendas` | kernel/src/engine.cpp:227-253 | two assignments of priorities that agree on the order of each participant's own tasks give agendas that do |
| `EngineOrder.SlotUnderTwoPriorities` | kernel/src/engine.cpp:208-283 | the same of one iteration of the slot loop under two assignments of priorities |
| `RunOrder.WaitingOrder` | kernel/src/engine.cpp:151-181 | before global_seq wraps, two waiting messages of one publisher are ordered by their places in what it published |
| `RunOrder.OneVoiceOrders` | kernel/src/process_participant.cpp:716-730 | with the same Recording publisher by publisher, who subscribes to one publisher only sees its messages in the same order |
| `RunOrder.RunLoses` | kernel/src/engine.hpp:113-120 | an unfailed run loses a message exactly when some publish met a full queue |
| `RunOrder.RunUnderTwoPriorities` | kernel/src/engine.cpp:206-283 | two engines alike but for priorities and registration order run alike to the end exactly when the second meets no full queue |
| `ManifestOrder.PrioritiesAreFree` | kernel/src/engine.cpp:63-283 | the same of two manifests that differ in priorities only, with the conditions stated of the manifest |
| `Feedthrough.HeardOrder` | kernel/src/engine.hpp:91-102 | over any latency-zero route that could carry a message at once there are programs whose memories show the order |
| `Feedthrough.InterchangeableIff` | kernel/src/engine.hpp:91-102 | whatever two participants run, their order in a slot makes no difference, if and only if neither has a latency-zero route that could carry a message of the other at once |
| `Interleaving.ToldTheOrder` | kernel/src/process_participant.cpp:716-730 | the merge tells a participant the same list, and the same channels in order, if and only if its messages stand in the same global order |
| `Interleaving.BothLike` | kernel/src/engine.cpp:140-182 | on unbounded queues two publishes of two publishers leave the bus alike in either order: same messages on every route, same Recording publisher by publisher |
| `Interleaving.InterleavingIsTold` | kernel/src/process_participant.cpp:716-730 | two publishes in either order: a participant is later told different lists, and different channels in order, if and only if before the publishes it has a route on each channel whose waiting messages are all in sight by then and whose new message is released by then |
| `Interleaving.NextSlotHearsTheOrder` | kernel/src/engine.hpp:91-92 | an input where the comment fails: two one-byte channels, default latency, both published at 5; either order leaves the bus alike and tells nothing in the slot at 5, and tells the order at 6 |
| `SetupProofs.FirstWorldIsReady` | kernel/src/engine.cpp:63-100 | setup leaves an engine in which nothing has happened and every task and replayer stands at its first instant |
| `SetupProofs.RollListed` | kernel/src/engine.cpp:69-127 | the registered tasks are those of the manifest, with their programs, outputs and priorities, and registration indices follow manifest order |
| `SetupProofs.RollManned` | kernel/src/engine.cpp:81-86 | each Replay participant has one replayer on its channels and Recording, in manifest order |
| `SetupProofs.AcceptedCast` | kernel/src/engine.cpp:67 | the one-publisher check gives every channel one publisher among tasks and replayers |
| `SetupProofs.CastSole` | kernel/src/manifest.cpp:738-768 | a replayer is then the only publisher of what it replays |
| `SetupProofs.CastSeparates` | kernel/src/manifest.cpp:738-768 | and two participants have no output channel in common |
| `SetupProofs.AcceptedRun` | kernel/src/engine.cpp:63-283 | every run of an accepted manifest ends, and unless it failed made exactly the declared activations, by time, declared priority and manifest order, with Recording and subscribers in agreement and every fault-free replayed Recording again |
| `RunLog.RunTells` | kernel/src/engine.cpp:206-283 | an unfailed run without replayers leaves the bus and the memories of its activation log played callback by callback |
| `Hearing.SceneRun` | kernel/src/engine.cpp:63-283 | a manifest in which two tasks publish once at one instant and a third merges later: the run completes unfailed, meets no full queue and publishes twice; the merging participant remembers the channels in the order the two were published, and everyone else nothing |
| `Hearing.PrioritiesAreHeard` | kernel/src/engine.hpp:91-92 | two such manifests whose priorities put the two publishers in opposite orders: the runs end in the same memories if and only if the merging participant cannot take both messages at its instant |
| `Hearing.PrioritiesAreNotFree` | kernel/src/engine.hpp:91-92 | two manifests that meet every condition of `PrioritiesAreFree` but that the merging participant hears one publisher, and whose completed runs are not alike |
| `EngineRuntime.DeliverGives` | kernel/src/engine.cpp:163-181 | pushing to the channel's own list, stopping at the first overflow, is delivery over all routes |
| `EngineRuntime.RecordedSource.constructor` | kernel/src/replayer.cpp:44-45 | a replayer starts at its first message to replay |
| `EngineRuntime.RecordedSource.SkipUnreplayed` | kernel/src/replayer.cpp:83-89 | the loop moves the cursor as the model does |
| `EngineRuntime.RecordedSource.NextPublishNs` | kernel/src/replayer.cpp:91-94 | the time at the cursor, or the largest instant |
| `EngineRuntime.RecordedSource.PublishDue` | kernel/src/replayer.cpp:96-107 | the loop publishes the run of messages stamped now, stopping where a publish fails |
| `EngineRuntime.MessageBus.constructor` | kernel/src/engine.cpp:19-38 | a Run starts with the declared channels and its own copies of the compiled plans, counting from zero |
| `EngineRuntime.MessageBus.Subscribe` | kernel/src/engine.cpp:129-138 | appends an empty route with the given owner, capacity and policy and the latency its channel declares; refuses an unknown channel |
| `EngineRuntime.MessageBus.Take` | kernel/src/engine.cpp:184-189 | the front of one route when visible, else nothing, and no other change |
| `EngineRuntime.MessageBus.DeliverTo` | kernel/src/engine.cpp:163-181 | the loop over a channel's subscribers is delivery in subscription order up to the first overflow |
| `EngineRuntime.MessageBus.Intercept` | kernel/src/engine.cpp:149-153 | only the channel's plan changes; the caller's bytes do not |
| `EngineRuntime.MessageBus.AcceptMessage` | kernel/src/engine.cpp:156-181 | recorded, numbered, then delivered |
| `EngineRuntime.MessageBus.Publish` | kernel/src/engine.cpp:140-182 | the whole new state and the failure are those of the model, including the sequence number a suppressed message uses up |
| `EngineRuntime.MessageBus.FindBest` | kernel/src/process_participant.cpp:720-724 | the visible front with the smallest sequence number among the participant's routes |
| `EngineRuntime.MessageBus.MergeInputs` | kernel/src/process_participant.cpp:719-730 | the loop yields the merge of the model and ends |
| `EngineRuntime.MessageBus.AnswerCall` | kernel/src/engine.cpp:140-189 | one call of a participant is answered as in the model |
| `EngineRuntime.MessageBus.Callback` | kernel/src/engine.cpp:266-271 | a callback ends with the model's state, memory or failure |
| `KernelRuntime.Kernel.constructor` | kernel/src/engine.cpp:19-38 | an engine with nothing registered, in setup |
| `KernelRuntime.Kernel.AddTask` | kernel/src/engine.cpp:109-127 | refuses a period of zero; otherwise exactly one task is added, as declared, with the next registration index |
| `KernelRuntime.Kernel.AddReplayer` | kernel/src/engine.cpp:81-86 | exactly one replayer is added, at its first message, with the next registration index, shared with tasks |
| `KernelRuntime.Kernel.SelectSlot` | kernel/src/engine.cpp:210-217 | the loops find the next slot of the model |
| `KernelRuntime.Kernel.DueItems` | kernel/src/engine.cpp:227-253 | the loops build the slot's list in the model's order |
| `KernelRuntime.Kernel.RunOneTask` | kernel/src/engine.cpp:262-281 | a callback and the next instant after it; a failure leaves the schedule where it was |
| `KernelRuntime.Kernel.RunOneReplay` | kernel/src/engine.cpp:246-261 | a replayer's turn |
| `KernelRuntime.Kernel.PerformItems` | kernel/src/engine.cpp:246-282 | the loop over the slot's list stops at a failure |
| `KernelRuntime.Kernel.Run` | kernel/src/engine.cpp:206-283 | the slot loop ends, failed or completed, in the state of the model's run and with every declaration as it was |
| `KernelRuntime.Kernel.Execute` | kernel/src/engine.cpp:206-283 | from setup the loop ends in the state of the model's run; unless failed, exactly the declared activations happened, by time, declared priority and registration index, and the Recording agrees with every subscriber |
| `KernelRuntime.Kernel.Subscribe` | kernel/src/engine.cpp:129-138 | exactly the subscribed route is added, with its channel's latency; an unknown channel is refused |
| `KernelRuntime.AddMember` | kernel/src/engine.cpp:71-98 | one participant: its routes and tasks, or its replayer, and nothing else; refused exactly for a period of zero or a route on an unknown channel |
| `KernelRuntime.EnrolAll` | kernel/src/engine.cpp:69-98 | the participants in turn, up to the first that is refused |
| `KernelRuntime.SetUp` | kernel/src/engine.cpp:63-100 | refused exactly for a channel declared twice, a period of zero or a route on an unknown channel; otherwise the engine is the one the manifest declares |
| `KernelRuntime.SetUpAndRun` | kernel/src/engine.cpp:63-283 | every accepted manifest gives a Run that ends in the state of the model's run of that manifest; unless failed, it made exactly the declared activations in declared order, its Recording agrees with every subscriber and every fault-free replayed Recording came out again |
| `Arena.SlotsAreDisjoint` | kernel/src/channel_arenas.cpp:70-76 | different slots do not overlap |
| `Arena.MappableIsExact` | kernel/src/channel_arenas.cpp:34-37 | the guard accepts a mapping exactly when its size does not wrap |
| `Arena.Region.constructor` | kernel/src/channel_arenas.cpp:43-56 | a new region refines an empty slot table |
| `Arena.Region.Write` | kernel/src/channel_arenas.cpp:95-112 | refused exactly for a slot or payload out of range; otherwise that slot holds the payload under a new stamp and no other slot changes |
| `Arena.Region.Read` | kernel/src/channel_arenas.cpp:114-131 | over any bytes: the payload exactly when the slot exists, its header carries that stamp and its length fits, and otherwise which of these failed |
| `Arena.ReadIsExact` | kernel/src/channel_arenas.cpp:114-131 | over bytes only the kernel wrote, reading answers as the slot table |
| `Arena.WriteRefines` | kernel/src/channel_arenas.cpp:95-112 | writing bytes into the flat region updates one entry of the slot table |
| `Base64.Encode` | kernel/src/process_participant.cpp:39-63 | the loop computes the encoding of section 4 of RFC 4648 |
| `Base64.Decode` | kernel/src/process_participant.cpp:89-105 | the loop with its wrapping accumulator computes the decoding, or refuses |
| `Base64.WrapIsHarmless` | kernel/src/process_participant.cpp:89-105 | the wrapping 32-bit accumulator decodes what an exact one does |
| `Base64.RoundTrip` | kernel/src/process_participant.cpp:39-105 | every byte string survives encoding and decoding |
| `Base64.SizeIsExact` | kernel/src/process_participant.cpp:84-87 | for every text that decodes the arithmetic size is the decoded length |
| `StepCodec.CodecRoundTrip` | kernel/src/process_participant.cpp:307-395 | decoding the encoded items through the same Arenas gives the same channels and bytes in order, at any protocol level and slot counts |
| `StepCodec.DecodeBytesMeaning` | kernel/src/process_participant.cpp:326-337 | an Arena item decodes exactly when its slot is negotiated, its header carries the stamp and its length fits, to that many bytes of the slot |
| `StepCodec.ChildWriteDecodes` | kernel/src/process_participant.cpp:326-337 | what a child writes to a slot as the protocol says, the kernel decodes, whatever the rest of the Arena holds |
| `StepCodec.ChildOutputsDecode` | kernel/src/process_participant.cpp:382-395 | any list of child writes to pairwise different slots decodes whole, in order, to the payloads written |
| `StepCodec.KernelBytesDecode` | kernel/src/process_participant.cpp:382-395 | over bytes only the kernel wrote, decoding the bytes is decoding the slot tables |
| `StepCodec.BudgetIsExact` | kernel/src/process_participant.cpp:370-395 | over Arenas with any bytes: where all items decode, the budget pre-pass counts exactly the bytes they inline, and fails exactly where that overflows |
| `StepCodecRuntime.Codec.EncodeInputs` | kernel/src/process_participant.cpp:351-368 | the loop over real Arenas encodes as the model |
| `StepCodecRuntime.Codec.DecodeOutputs` | kernel/src/process_participant.cpp:382-395 | over Arenas with any bytes the loop decodes what the bytes say, and fails where they are stale or too long |
| `StepCodecRuntime.Codec.InlinePayloadBytes` | kernel/src/process_participant.cpp:370-380 | the loop of the pre-pass counts as the model |
| `StepCodecRuntime.Codec.TablesDecode` | kernel/src/process_participant.cpp:382-395 | over Arenas only the kernel wrote that is what the slot tables say |
| `StepCodecRuntime.Codec.EncodeMessage` | kernel/src/process_participant.cpp:356-366 | the next unused slot of the channel, or inline |
| `StepCodecRuntime.Codec.DecodeItem` | kernel/src/process_participant.cpp:326-337 | over Arenas with any bytes: the item's slot when it is within the negotiated count and carries its stamp and a fitting length, or its inline text |
| `LineReader.Reader.AppendChecked` | kernel/src/process_participant.cpp:891-916 | accepts exactly when every line the chunk touches stays within the limit; otherwise keeps nothing |
| `LineReader.Reader.ReadLine` | kernel/src/process_participant.cpp:931-977 | the loop returns the model's next line, buffer and number of reads |
| `LineReader.NextLineMeaning` | kernel/src/process_participant.cpp:931-977 | the next line is that of the stream wherever the reads cut it, and is within the limit |
| `LineReader.FramingIsChunkIndependent` | kernel/src/process_participant.cpp:888-977 | reading fails if and only if some line of the stream is over the limit, and otherwise yields the lines of the stream |
| `LineReader.SameStreamSameLines` | kernel/src/process_participant.cpp:888-977 | two ways of cutting one stream agree |
| `LineReader.ReadingConserves` | kernel/src/process_participant.cpp:931-977 | lines with their newlines, the buffer and the reads still to come make up the stream |
| `LineReader.BufferIsBounded` | kernel/src/process_participant.cpp:888-916 | the buffer stays within the limit plus one read |
| `Observer.MoveKeepsShared` | source_scope/observer.c:233-314 | each atomic step keeps the shared invariant |
| `Observer.MoveKeepsOther` | source_scope/observer.c:276-314 | each step keeps what every other thread relies on |
| `Observer.MoveCountsOnce` | source_scope/observer.c:276-314 | each step adds to the counters exactly what it settles |
| `Observer.ExecuteKeepsInv` | source_scope/observer.c:233-314 | the invariant holds after every interleaving |
| `Observer.ExecuteKeepsTruth` | source_scope/observer.c:276-314 | in every interleaving each thread works on its latest call with the clock value read in it |
| `Observer.Safety` | source_scope/observer.c:276-314 | at most one thread in the locked section, no record past the capacity, no use of the mapping before it exists, each thread's records in program order, and every record the operation of the call it names with a clock value read in that call |
| `Observer.RecordsArePermanent` | source_scope/observer.c:304-309 | no later step changes or withdraws a published record |
| `Observer.EveryObservationIsCounted` | source_scope/observer.c:272-314 | with no call under way, every observation that met a session is counted exactly once |
| `Manifest.ParseSchema` | kernel/src/manifest.cpp:196-237 | accepts exactly non-empty schemas with known types, positive counts, distinct names and an exact size below 2^64, and records that size |
| `Manifest.FieldSize` | kernel/src/manifest.cpp:224-228 | the exact size of a field, refused exactly when it does not fit |
| `Manifest.FieldsAreDisjoint` | kernel/src/manifest.cpp:224-234 | fields take disjoint ranges inside the message |
| `Manifest.FieldsCover` | kernel/src/manifest.cpp:224-234 | messages that agree on all fields are equal |
| `Manifest.EncodeOverride` | kernel/src/manifest.cpp:240-268 | the low bytes of the constant, least significant first |
| `Manifest.ConstantReadsBack` | kernel/src/manifest.cpp:240-268 | an integer constant its type can represent reads back as itself, signed ones in two's complement |
| `Manifest.FindField` | kernel/src/manifest.cpp:595-611 | the first field of that name and the exact sum of the widths before it |
| `Manifest.CompilePlan` | kernel/src/manifest.cpp:561-622 | the loops compile the model's plan, or fail where it does |
| `Manifest.CompiledOverride` | kernel/src/manifest.cpp:594-616 | a compiled override patches exactly one scalar field with its encoded constant |
| `Manifest.PlanPatchesFields` | kernel/src/interceptor.cpp:51-59 | on a message of the schema's size no patch is out of range and each field ends as its last in-window override left it, or untouched |
| `Manifest.PlanNeverThrows` | kernel/src/interceptor.cpp:20-61 | applying a compiled plan to a message of the schema's size never throws, whatever it has counted |
| `Manifest.ValidateOnePublisher` | kernel/src/manifest.cpp:738-768 | accepts exactly when no channel is declared twice, and otherwise names one that is, with the participants of two of its declarations |
| `Manifest.PublishersAreSeparate` | kernel/src/manifest.cpp:738-768 | after the check no two participants publish a common channel |
| `Rounding.CorrectlyRoundedQuotient` | kernel/src/diagnostics_stats.cpp:72-85 | no finite double is nearer to the exact quotient and ties go to even; the loop ends and nothing overflows 128 bits |
| `Rounding.StickyIsLocated` | kernel/src/diagnostics_stats.cpp:82-83 | the quotient with its sticky bit tells on which side of the rounding boundary the exact quotient is |
| `Rounding.NoneBetween` | kernel/src/diagnostics_stats.cpp:66-71 | no double lies between the two candidates |
| `Statistics.RankedMeaning` | kernel/src/diagnostics_stats.cpp:51-54 | the reference ranking is a permutation of the history in rank order |
| `Statistics.SlowestIsExact` | kernel/src/diagnostics_stats.cpp:48-62 | for every history the kept list is the first twenty of the ranked history |
| `Statistics.SummaryIsExact` | kernel/src/diagnostics_stats.cpp:20-46 | count, sum modulo 2^64, extrema and slowest list agree with the whole history |
| `Statistics.ReservoirIsExact` | kernel/src/diagnostics_stats.cpp:37-44 | up to the capacity the samples are all durations; beyond it a full reservoir of durations that occurred |
| `Statistics.RankIsNearest` | kernel/src/diagnostics_stats.cpp:111-116 | the chosen element is the smallest that at least p per cent of the samples do not exceed |
| `Statistics.PercentileIsExact` | kernel/src/diagnostics_stats.cpp:99-117 | up to the capacity a percentile is the nearest rank over every completed activation |
| `Statistics.DurationDistribution.Add` | kernel/src/diagnostics_stats.cpp:20-46 | one addition is one step of the summary |
| `Statistics.DurationDistribution.KeepIfSlow` | kernel/src/diagnostics_stats.cpp:48-62 | the slowest list after one more activation |
| `Statistics.DurationDistribution.Mean` | kernel/src/diagnostics_stats.cpp:89-92 | absent exactly without activations, else the recorded sum over the count rounded once |
| `Statistics.DurationDistribution.GetPercentile` | kernel/src/diagnostics_stats.cpp:99-117 | a nearest rank, or the reason why there is none, each exactly when it applies |
| `ObservationStream.AppendKeeps` | kernel/src/observation_log.cpp:22-49 | an appended line keeps the log consistent whatever the writes do |
| `ObservationStream.RunIsConsistent` | kernel/src/observation_log.cpp:22-80 | records, dropped and buffered add up to the lines and losses, record bytes stay within the limit, counted records are in the file, and without a failure file and buffer hold exactly the lines that fit |
| `ObservationStream.ClosedStream` | kernel/src/observation_log.cpp:82-109 | a closed file is a prefix of the fitting lines followed by what went out of the end line, with every record counted once |
| `ObservationStream.CompleteStream` | kernel/src/observation_log.cpp:82-109 | when no write fails the file is the lines before the first that does not fit and one end line with matching counts |
| `ObservationStream.ObservationLog.constructor` | kernel/src/observation_log.cpp:9-16 | a new log holds nothing and waits for its header |
| `ObservationStream.ObservationLog.WriteAll` | kernel/src/observation_log.cpp:61-80 | the loop of partial writes moves the file and the flags as the model |
| `ObservationStream.ObservationLog.Flush` | kernel/src/observation_log.cpp:51-59 | buffered records become kept or dropped together |
| `ObservationStream.ObservationLog.Append` | kernel/src/observation_log.cpp:22-49 | one append is one step of the model |
| `ObservationStream.ObservationLog.Close` | kernel/src/observation_log.cpp:82-109 | the flush, the end line as far as it goes, and nothing on later calls |

## Left out

- Process spawning, pipes, deadlines, signals, mapped files, JSON and MCAP: the reads and writes that
  reach the model are arbitrary inputs.
- Engine.Run: a callback gets a bounded number of calls, `patience`; one that needs more counts as a
  failed run, as one that never returns would be. The theorems hold for every bound.
- Activation.Activate: a callback that goes on after a failed call is cut at that call; the run has
  failed either way.
- KernelRuntime.SetUp: a participant's `init` is the list of routes and tasks it registers; opening Recordings,
  loading libraries, spawning children and interrupts are left out. A refusal names no reason.
- RunOrder.RunUnderTwoPriorities: the conditions on latencies and on merging participants are those of a manifest,
  for all programs; `Feedthrough.InterchangeableIff` and `Hearing.PrioritiesAreHeard` show that they are needed
  for some programs, not for each single one.
- Hearing.PrioritiesAreHeard: the programs are fixed ones, with unbounded queues and no replayers.
- RunLog.RunTells: runs with replayers publish between the logged callbacks and are outside.
- EngineOrder.EngineOrderIndependence: a participant with a latency-zero route on a channel of its own, which hears
  itself, is outside the condition.
- Feedthrough.InterchangeableIff: participants with a latency-zero route on a channel of their own, and bounded
  queues, are outside the equivalence.
- Observer.Safety: sequential consistency, and the steps before `finalize`; the checks and the mapping of
  `activate` are one step that succeeds or refuses.
- EngineRuntime.MessageBus.Publish: a Recording is always written, names are positions, and the copy
  counters are not modelled.
- DataPlane.PublishKeepsAgreement: channel numbers are stated modulo 2^32, which is 0, 1, 2, ... up to that many.
- Merge.MergeIsOrdered: before `global_seq` wraps at 2^64, and with one route per channel and participant.
- LineReader.Reader.ReadLine: interrupted reads, time-outs and the size named in the error are not modelled.
- ObservationStream.ObservationLog.Append: interrupted writes are not modelled; byte counts are unbounded;
  a forked child is not modelled.
- Statistics.DurationDistribution.Add: the generator's draws are arbitrary numbers, so nothing is said about
  the uniformity of the reservoir; the running variance is left out; the count does not wrap at 2^64.
- Manifest.EncodeOverride: float constants are opaque bit patterns.
- Manifest.CompilePlan: fault kinds are already parsed, and key and type checks of the manifest are left out.
- Rounding.CorrectlyRoundedQuotient: the conversion of an integer to double is the platform's
  round-to-nearest, written out as a definition.
- The clock shim, the launcher, provenance and failure reports, native library loading and the example
  participants: they would add only simple members.
