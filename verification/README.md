# moqtail: a verified model of its data plane

moqtail is a Media over QUIC Transport toolkit. This project models, in Dafny, the parts
of its relay and clients whose correctness is not visible in any one function: the
relay's track cache, its duplicate detector, the per-subscription state machine with
track switches and the sender-side switching gate, the partial evaluation of Range
Filters, the subscription indexes and their locks, the rate limiter and the stream
priorities, the client's routing and counting, the room signalling of the meeting
application, and the identifier codec of MSF URLs.

`dafny verify dfyconfig.toml` checks everything.

| module | models |
|---|---|
| `Locations`, `Sequences` | Object Locations, their order and successor on 64-bit integers; splitting and repetition |
| `AbsentRanges`, `TrackCache`, `FillClaims` | the track cache, against any fixed track content |
| `BitWords`, `SeenObjects`, `Strides` | the duplicate detector, against the history of questions |
| `SubscriptionStates`, `Delivery` | one subscription's window and its streams, an event at a time |
| `StreamWrites`, `StreamRuns`, `StreamMisreads` | one subgroup's writes, a lock at a time, with updates, cuts, stops and timeouts in between; what the steps come to alone, and what their harm leads to |
| `Switching`, `SwitchSeam`, `SwitchDone` | switches between subscriptions, where they meet, and how often PUBLISH_DONE goes out |
| `SwitchStops`, `SwitchWindows` | that what a switch or a drain stops stays silent, and what each step makes a subscription deliver |
| `SwitchLocks` | the switches to one subscription, lock by lock |
| `SstsGate`, `SstsMembers`, `SstsDecisions`, `SstsWaits` | the gate cache, its resolvers and the controller they wait for; who keeps a track in its set; which decisions are kept; waiting in vain |
| `Filters`, `FilterRanges` | Range Filters, against what the parameters mean and what their deltas stand for |
| `SubscriptionManager`, `IndexLocks` | a track's subscription indexes, one operation at a time and lock by lock |
| `TokenBucket`, `StreamPriority` | the rate limiter over reals; the priority packing |
| `Routing`, `Stats`, `StatsGaps`, `Reception` | the client's object router and counters, alone and together |
| `Signalling`, `SignallingRuns` | the join/welcome protocol |
| `MsfUrl`, `MsfAlphabet` | the MSF track identifier, at byte level |

Structures the source edits in place are classes whose methods are proved against
functions or predicates on values; protocols with interleavings are state machines, and
their results hold in every reachable state of every run.

## Where the code and its documentation disagree

The model follows the code. In each case a lemma gives a run or an input, and the exact
condition is proved.

- A soft switch whose boundary is group 0 suspends nobody, although the comment at
  `apps/relay/src/server/subscription.rs:919-920` says it cuts
  (`SwitchSeam.BoundaryZeroSuspendsNobody`; exactly when: `SwitchSeam.WhatBeginLeavesTheOldOne`).
- A soft switch's boundary is in force as soon as the switch begins; the check that would
  hold it back is commented out at `apps/relay/src/server/subscription.rs:1295-1303`,
  although `apps/relay/src/server/client/switch_context.rs:58-61` describes it as held
  (`SwitchSeam.NextObjectLeavesAHole`; exactly what it takes: `SwitchSeam.WhatBeginLeavesTheOldOne`).
- A soft switch without a Start Group finds its boundary in the first group delivered. That
  holds the old subscription only; the new one may still send earlier groups, although
  `apps/relay/src/server/client/switch_context.rs:40-43` says it delivers from the boundary
  (`SwitchSeam.DiscoveredBoundaryOverlaps`; exactly when: `SwitchSeam.NewSideExactly`).
- The two subscriptions of a soft switch do not always meet without a hole, as
  `apps/relay/src/server/subscription.rs:914-915` has it: a start inside the boundary group
  leaves its first Objects to neither (`SwitchSeam.NextObjectLeavesAHole`; exactly where: `SwitchSeam.HoleExactly`; exactly
  when: `SwitchSeam.MeetsWithoutHoleExactly`).
- Recording a switching decision prunes old ones without moving the epoch, although
  `apps/relay/src/server/subscription.rs:472-477` says every decision moves it, so a pruned
  group can be decided again and two tracks of a set can forward it under stamps that are
  current (`SstsGate.PrunedGroupForwardsTwice`; exactly when: `SstsGate.AgreementSurvivesExactly`).
- Taking a track out of its set notifies nobody, although the comment at
  `apps/relay/src/server/subscription.rs:1203-1206` counts on a waiting Object being
  forwarded then: the Object can wait unanswered until the event loop drops it after five
  seconds (`SstsWaits.TeardownDropsTheObject`, and with another set in use
  `SstsWaits.WaitsBesideAnotherSet`; exactly when: `SstsWaits.UnansweredExactly`). The
  track's next Object is forwarded (`SstsWaits.NextObjectIsForwarded`).
- A group that is decided already has its waiters woken because "the answer already exists"
  (`apps/relay/src/server/ssts/controller.rs:103-108`). For a track that joined its set after
  the decision there is none: it is woken, asks again and waits on, until each of its
  Objects is dropped (`SstsWaits.LateTrackKeepsAsking`, `SstsWaits.LateIsNotAnswered`; this
  ends exactly when: `SstsWaits.LateEndsExactly`).
- An Object that is both held and marked absent makes a lookup give up although everything
  is accounted for (`TrackCache.HeldAndAbsentHidesLaterObjects`; exactly when:
  `TrackCache.AnswersUnlessHidden`).
- A stream the peer stopped leaves its last Object ID behind, and the next stream of that
  subgroup is misread (`Delivery.StoppedStreamMisdecodes`; exactly when: `Delivery.StreamsDecode`).
- Lock by lock there are more ways to a misread stream, without any stop by the peer. An
  update that opens a stream ahead makes its last-ID entry afterwards, over the ID of an
  Object written meanwhile (`StreamMisreads.UpdateOverwritesLastId`); an Object can be
  written before the header, although `apps/relay/src/server/client.rs:419-420` has it at the
  beginning (`StreamMisreads.ObjectBeforeHeader`); a hard switch can cut between a write
  and its recording (`StreamMisreads.CutBetweenWriteAndRecord`); and an Object can be given
  up there. Exactly which steps do harm: `StreamWrites.StaysSoundExactly`,
  `StreamMisreads.HarmShows`.
- A switch happens when the new subscription delivers
  (`apps/relay/src/server/subscription.rs:1000-1002`), but its flag is lowered before its plan
  is taken. An Object dropped in between leaves the plan set for good, and a hard switch
  never cuts (`SwitchLocks.DroppedSwitch`; exactly when: `SwitchLocks.HappensExactly`,
  `SwitchLocks.LostExactly`). And a switch that begins in between is carried out for an
  Object delivered before it began, although
  `apps/relay/src/server/subscription.rs:917-919` says that a hard one waits for its own
  first delivery (`SwitchLocks.SuspendedEarly`; exactly when: `SwitchLocks.OrderlyExactly`).
- Detaching every subscription takes one lock at a time, so a subscription added meanwhile
  can stay listed in one index and missing from the others
  (`IndexLocks.AddedWhileDetaching`; exactly when: `IndexLocks.AgreesExactly`).
- The rate limiter credits time asleep again, so it lets through up to twice its rate
  (`TokenBucket.TwiceTheRate`; exactly when: `TokenBucket.KeepsTheRateExactly`).
- The duplicate detector's window forgets an ID once one exactly 4096 above it has been
  seen; `apps/relay/src/server/seen_objects.rs:67` speaks of more than 4096 behind
  (`SeenObjects.ForgottenAt4096`).
- Stream priorities follow the group order only within aligned blocks of 65536 groups
  (`StreamPriority.TurnsOverAtABlock`; exactly when: `StreamPriority.RanksLexicographically`).
- A namespace with an empty field loses it in an MSF URL (`MsfUrl.ValueRoundTrip`; exactly
  when: `MsfUrl.NamespaceRoundTripsExactly`).

## Model

| member | source | states |
|---|---|---|
| `AbsentRanges.AbsentSet.Insert` | apps/relay/src/server/track_cache.rs:91-113 | the ranges stay sorted, disjoint and non-touching, and are the canonical form of old ∪ [from, to], of which the cap keeps the highest 65536 |
| `AbsentRanges.AbsentSet.MergedWith` | apps/relay/src/server/track_cache.rs:93-109 | merging what overlaps or touches, across groups too, gives a canonical list of exactly the union |
| `AbsentRanges.CapForgetsTheLowest` | apps/relay/src/server/track_cache.rs:78-80 | the cap only forgets, nothing while within it, and everything it drops lies before everything it keeps |
| `AbsentRanges.EndContaining` | apps/relay/src/server/track_cache.rs:115-123 | an end exactly when the Location is absent, and the largest end such that everything up to it is |
| `AbsentRanges.CanonicalIsUnique` | apps/relay/src/server/track_cache.rs:82-89 | two canonical lists of the same Locations are the same list, so what the set holds does not depend on the order of insertion |
| `TrackCache.Inserted` | apps/relay/src/server/track_cache.rs:250-255 | the group stays in ascending order and gains the Object unless its ID is held already |
| `TrackCache.Cache.AddObject` | apps/relay/src/server/track_cache.rs:240-262 | a cache step that adds one Object and keeps every group sorted |
| `TrackCache.Cache.MarkAbsent` | apps/relay/src/server/track_cache.rs:263-268 | a cache step that adds a range, or nothing if the range is backwards |
| `TrackCache.Cache.ObjectsIfComplete` | apps/relay/src/server/track_cache.rs:270-315 | the answer is the range's Objects exactly if the range is complete |
| `TrackCache.AnswerFrom` | apps/relay/src/server/track_cache.rs:295-314 | the cursor walk ends for every bound up to the largest 64-bit ID and answers exactly when every ID that is not absent is held, with no held and absent ID below it |
| `TrackCache.StepKeepsAgreement` | apps/relay/src/server/track_cache.rs:240-268 | no truthful addition, truthful absence or eviction makes the cache disagree with the track |
| `TrackCache.RunAgrees` | apps/relay/src/server/track_cache.rs:240-268 | in every run against any fixed track, all the cache holds is the track's and all it calls absent is absent |
| `TrackCache.AnswersAreExact` | apps/relay/src/server/track_cache.rs:270-315 | in every run, even when group and absences are read at different moments, an answer is exactly the track's Objects of the range in order, and there is one exactly if every ID is held or absent |
| `TrackCache.ExactIsUnique` | apps/relay/src/server/track_cache.rs:270-272 | there is only one such list |
| `TrackCache.AnswersUnlessHidden` | apps/relay/src/server/track_cache.rs:299-312 | whatever the cache was told, a fully accounted range is refused exactly when an ID both held and absent lies below one held and not absent |
| `TrackCache.HeldAndAbsentHidesLaterObjects` | apps/relay/src/server/track_cache.rs:299-312 | a run that adds two Objects, marks the first absent, holds both and answers nothing |
| `FillClaims.FillList.ClaimFill` | apps/relay/src/server/track_cache.rs:317-333 | for claims of at least one group, refused exactly when a listed claim covers one of the groups, with that claim's lock; otherwise listed under a new one |
| `FillClaims.FillList.Unlist` | apps/relay/src/server/track_cache.rs:66-76 | exactly the claim of that lock leaves the list |
| `FillClaims.MoveKeepsSound` | apps/relay/src/server/track_cache.rs:54-76 | every claim, unlisting, release and waiter's step keeps the claims apart and their locks held |
| `FillClaims.ClaimsExclude` | apps/relay/src/server/track_cache.rs:54-76 | in every interleaving: no group is claimed twice, every listed claim's lock is its filler's, and a waiter that got a lock finds its claim gone |
| `FillClaims.RefusedExactly` | apps/relay/src/server/track_cache.rs:317-333 | in every run of claims of at least one group, a claim changes nothing exactly if one of its groups is claimed, and otherwise adds exactly its groups to those claimed |
| `FillClaims.RefusalEndsWithTheClaim` | apps/relay/src/server/track_cache.rs:317-333 | the lock a refusal names cannot be taken before the claim is unlisted and released, and can be then, by one waiter after the other |
| `BitWords.SetBit` | apps/relay/src/server/seen_objects.rs:290-292 | exactly that bit is set, all others stay |
| `BitWords.ClearBit` | apps/relay/src/server/seen_objects.rs:294-296 | exactly that bit is cleared, all others stay |
| `SeenObjects.GroupBits.constructor` | apps/relay/src/server/seen_objects.rs:177-196 | a group starts with exactly its first Object recorded |
| `SeenObjects.GroupBits.TestAndSet` | apps/relay/src/server/seen_objects.rs:213-238 | seen exactly if recorded before and nothing 4096 or more above it was, inline or in the window |
| `SeenObjects.GroupBits.Promote` | apps/relay/src/server/seen_objects.rs:236-251 | moving to the window forgets nothing and invents nothing |
| `SeenObjects.GroupBits.WindowTestAndSet` | apps/relay/src/server/seen_objects.rs:256-284 | the circular window answers like the set of the newest 4096 IDs, for any jump |
| `SeenObjects.GroupBits.ClearDisplaced` | apps/relay/src/server/seen_objects.rs:262-272 | sliding clears exactly the positions handed over to newer IDs |
| `SeenObjects.Detector.IsDuplicate` | apps/relay/src/server/seen_objects.rs:115-147 | a Location is a duplicate exactly if it was asked about before, no newer group of its slot was, and no ID 4096 or more above it in its group was |
| `SeenObjects.Answers` | apps/relay/src/server/seen_objects.rs:115-147 | the same of every answer of every whole run, for any ring length, including none |
| `SeenObjects.ForgottenAt4096` | apps/relay/src/server/seen_objects.rs:274-278 | after an ID some way above it, ID 0 is remembered exactly if the distance is below 4096 |
| `Strides.StepsComeBack` | apps/relay/src/server/seen_objects.rs:39-44 | m steps of s come back to the same slot of N exactly if N / gcd(N, s) divides m |
| `Strides.StridedRetention` | apps/relay/src/server/seen_objects.rs:39-44 | of groups 0, s, 2s, ... in order, group j·s is remembered after k·s exactly if k − j < N / gcd(N, s) |
| `SubscriptionStates.FilterWindow` | apps/relay/src/server/subscription.rs:166-207 | with a filter in place, delivered is exactly what lies between its start and its end, while forwarding and passing; before the start and past the end are exactly what lies there |
| `SubscriptionStates.VerdictExactly` | apps/relay/src/server/subscription.rs:1281-1349 | which refusal an Object gets: the start and then the end come first, whatever Forward State and Range Filters say, then Forward State, then the Range Filters |
| `SubscriptionStates.FilterPasses` | libs/moqtail-rs/src/model/parameter/location_filter.rs:62-99 | a filter's window in its own terms: the last groups and those to come, what comes after the largest Object, or the bounds named, at the end of the number range too |
| `SubscriptionStates.MeasuredLater` | apps/relay/src/server/subscription.rs:188-196 | a live filter passes everything until it is measured, and then what it would have passed had it been measured at once |
| `SubscriptionStates.SuspensionNeverExtends` | apps/relay/src/server/subscription.rs:921-948 | a suspension puts past the end exactly what was past it and the groups from the boundary on |
| `Delivery.SoundDecodes` | libs/moqtail-rs/src/model/data/subgroup_object.rs:83-94 | a receiver reads the IDs meant exactly when the stream did not open with a stale last ID |
| `Delivery.HandledIsValid` | apps/relay/src/server/subscription.rs:1281-1349 | every verdict on an Object, skipped headers and late opening included, keeps each stream's deltas relative to what was written on it |
| `Delivery.Subscription.HandleSubgroupObject` | apps/relay/src/server/subscription.rs:1434-1561 | the verdict by start, end, Forward State and filter, in this order, and its effect on every stream, the end of a drain included |
| `Delivery.Subscription.FinishSoftDrain` | apps/relay/src/server/subscription.rs:1033-1061 | a drain ends once, with Forward State 0, and closes the streams if PUBLISH_DONE is due |
| `Delivery.Subscription.EndAllStreams` | apps/relay/src/server/subscription.rs:1121-1135 | no stream and no last ID is left, and the count of streams opened stays |
| `Delivery.Subscription.HandleStreamClosed` | apps/relay/src/server/subscription.rs:1859-1869 | the stream's records go, nothing else does |
| `Delivery.Subscription.PeerStops` | apps/relay/src/server/client.rs:622-635 | the stream is dropped and its last ID stays behind |
| `Delivery.Subscription.Update` | apps/relay/src/server/subscription.rs:695-781 | the new window and Forward State, and a pending header opened without its first-Object claim |
| `Delivery.StreamsDecode` | apps/relay/src/server/subscription.rs:1709-1787 | in every reachable book, with each event as one step, each stream ever opened decodes to exactly the IDs sent unless it opened with a stale ID, which takes a peer's stop; a first-Object claim is true; the stream count is right |
| `Delivery.ForwardedSends` | apps/relay/src/server/subscription.rs:1434-1546 | exactly when an Object goes out, that it is appended to its own stream and becomes its last ID, that no other stream changes, and what becomes of the headers saved and the count of streams |
| `Delivery.PausedStreamOpensAhead` | apps/relay/src/server/subscription.rs:745-776 | a header that came while the subscription was paused is held back, and set to forward it opens its stream, without the first-Object claim, for the next Object to be read right |
| `Delivery.RefusedSendsNothing` | apps/relay/src/server/subscription.rs:1281-1349 | an Object that is not to be delivered changes nothing on the wire, and its header is saved, held back or let go by the verdict |
| `Delivery.SkippedStreamStillOpens` | apps/relay/src/server/subscription.rs:1281-1349 | a stream whose first Object was skipped by start or filter can still be opened by a later one |
| `Delivery.StoppedStreamMisdecodes` | apps/relay/src/server/client.rs:622-635 | after a peer's stop the next Object of the subgroup is read as a different ID |
| `StreamWrites.ReadsRightExactly` | libs/moqtail-rs/src/model/data/subgroup_object.rs:83-94 | a receiver reads the IDs meant exactly if every Object is written relative to the one before it |
| `StreamWrites.StaysSoundExactly` | apps/relay/src/server/subscription.rs:1434-1546 | lock by lock, with updates opening streams on a task of their own, a step keeps every stream readable and the last ID right exactly if it is none of: reading a last ID other than that of the stream in hand, writing before the header, giving up within a write or before its recording, recording under or after a cut, letting go of a stream while there is a last ID, and an update's entry over a last ID that no recording is about to replace |
| `StreamWrites.HarmlessRunsRead` | apps/relay/src/server/subscription.rs:1434-1546 | in every interleaving without such a step, every stream is whole and reads as the IDs meant |
| `StreamRuns.ObjectAlone` | apps/relay/src/server/subscription.rs:1434-1546 | handled alone, an Object is appended to the stream there is, relative to the last ID, or to a new one after its header, and becomes the last ID; a stream that is gone is let go of, and without a stream nothing is written |
| `StreamRuns.OnwardExactly` | apps/relay/src/server/subscription.rs:1434-1546 | with an Object in hand exactly one step of the event task comes next, besides giving up |
| `StreamRuns.GiveUpLeaves` | apps/relay/src/server/subscription.rs:645-655 | giving up drops the Object and nothing else, but for a header or write left half done |
| `StreamRuns.UpdateAlone` | apps/relay/src/server/subscription.rs:757-776 | an update alone opens a stream with its header, or takes the one there is, and enters no last ID for it |
| `StreamRuns.CutAlone` | apps/relay/src/server/subscription.rs:1121-1135 | a cut alone leaves no stream and no last ID, and the stream there was is gone |
| `StreamRuns.IdsAscend` | apps/relay/src/server/subscription.rs:1434-1546 | in every run the IDs that come to the event task ascend |
| `StreamMisreads.HarmShows` | apps/relay/src/server/subscription.rs:1511-1546 | after any such step the event task alone, given two more Objects and the end of the cuts under way, can bring a stream to be torn or misread |
| `StreamMisreads.UpdateOverwritesLastId` | apps/relay/src/server/subscription.rs:757-776 | a run without a stop, a cut or a give-up in which an update's entry replaces a last ID, so that Objects 1 and 2 are read as 1 and 4 |
| `StreamMisreads.ObjectBeforeHeader` | apps/relay/src/server/client.rs:383-460 | a run in which the event task writes its Object to a stream an update has opened, before its header |
| `StreamMisreads.CutBetweenWriteAndRecord` | apps/relay/src/server/subscription.rs:1121-1135 | a run without a peer's stop in which a cut between a write and its recording leaves a state from which the next stream can be misread |
| `Switching.StepKeepsInv` | apps/relay/src/server/subscription.rs:870-1061 | every step of every subscription keeps plans, drains and the log consistent |
| `Switching.SwitchesAreOrderly` | apps/relay/src/server/subscription.rs:954-1061 | with each delivery and each beginning as one step, and deliveries dropped on the way to a completion or within it, in every run a cut comes after the activating subscription delivered since the switch began and the plan completed, a plan completes at most once, and PUBLISH_DONE is sent at most once for it |
| `SwitchDone.DoneExactly` | apps/relay/src/server/subscription.rs:954-1061 | in every run a switch sends PUBLISH_DONE exactly if it asked for it and has cut or drained the subscription it leaves without being dropped at it, so a subscription is sent it at most once exactly if at most one switch that asked has stopped it |
| `SwitchDone.DoneTwice` | apps/relay/src/server/subscription.rs:954-998 | a run in which two hard switches away from one subscription send it PUBLISH_DONE twice |
| `Switching.ForwardFallsOnlySo` | apps/relay/src/server/subscription.rs:954-998 | Forward State falls to 0 only by request, at the end of a drain, or by a cut in the log, dropped afterwards or not |
| `SwitchStops.SilentOnceStopped` | apps/relay/src/server/subscription.rs:954-1061 | in every run, after a cut or the end of a drain, dropped in its midst or not, the subscription sends no subgroup Object and no datagram until it is asked to forward, switched to, or subscribed anew |
| `SwitchStops.DrainEndsExactly` | apps/relay/src/server/subscription.rs:1295-1316 | a drain ends exactly with a subgroup Object that is not before the start and lies past the end, whatever Forward State, the Range Filters and the write say |
| `SwitchStops.DrainEnds` | apps/relay/src/server/subscription.rs:1033-1061 | the end of a drain leaves Forward State 0, and PUBLISH_DONE goes out and finishes the subscription exactly if the switch asked for it and is not dropped there |
| `SwitchWindows.SubscribeDelivers` | apps/relay/src/server/subscription.rs:188-196 | a new subscription delivers exactly what its filter passes, while forwarding; everything until a live filter is measured |
| `SwitchWindows.MeasuringDelivers` | apps/relay/src/server/subscription.rs:559-575 | once measured, it delivers exactly what its filter passes of the track |
| `SwitchWindows.UpdateDelivers` | apps/relay/src/server/subscription.rs:697-747 | an update changes the window exactly if it carries a filter, and Forward State exactly if it carries one |
| `SwitchWindows.BeginDelivers` | apps/relay/src/server/subscription.rs:870-895 | beginning a switch makes the subscription it names forward exactly what passes in its window, that of the switch's filter if there is one |
| `SwitchWindows.HardSwitchCuts` | apps/relay/src/server/subscription.rs:954-975 | the delivery that completes a hard switch sets Forward State 0 on the subscription it leaves, changes nothing else of it, and leaves no plan |
| `SwitchWindows.DeliveryLeaves` | apps/relay/src/server/subscription.rs:1000-1027 | a delivery without flag and plan leaves the plans and logs itself only; with both it takes them, and the log shows the switch happen as its plan has it |
| `SwitchWindows.DroppedLeaves` | apps/relay/src/server/subscription.rs:1556-1560 | what is left of a switch whose completing delivery is dropped, by where it is dropped: the flag, the plan, the completion and the cut |
| `SwitchWindows.DatagramExactly` | apps/relay/src/server/subscription.rs:1600-1640 | in every run a datagram is delivered exactly if it is forwarded and passes, is not before the start, and is not past the end or the switch the subscription drains for has yet to complete |
| `SwitchWindows.NothingOnceOver` | apps/relay/src/server/subscription.rs:637-657 | in every run, once finished or unsubscribed a subscription sends nothing, whatever is done to it, until it is subscribed anew |
| `SwitchLocks.OrderlyExactly` | apps/relay/src/server/subscription.rs:897-910 | lock by lock, in every run each switch that happened had something delivered since it began exactly if no plan was taken for an Object written before it began |
| `SwitchLocks.EachAtMostOnce` | apps/relay/src/server/client/switch_context.rs:99-107 | lock by lock, in every run a switch happens at most once, and suspends at most once and only after it happened |
| `SwitchLocks.TaskMovesOn` | apps/relay/src/server/subscription.rs:1556-1560 | every step of the event task brings it nearer to being done with its Object, and it sends the next one exactly when it is |
| `SwitchLocks.HappensExactly` | apps/relay/src/server/subscription.rs:1556-1560 | a switch that has begun can still happen exactly while its plan is yet to be set, or is set and the event task has seen the flag or will see one raised; the same of its suspending the other subscription |
| `SwitchLocks.LostForGood` | apps/relay/src/server/subscription.rs:1003-1011 | otherwise it never happens and never suspends, whatever follows, later switches included |
| `SwitchLocks.LostExactly` | apps/relay/src/server/subscription.rs:1000-1027 | a step ends the chance that a switch suspends exactly if it suspends, sets another plan over it, or drops the Object with the plan in hand, or with the flag lowered for it and none left to be raised |
| `SwitchLocks.DroppedSwitch` | apps/relay/src/server/subscription.rs:645-655 | a run in which the new subscription delivers, the Object is dropped before its plan is taken, and the switch can happen no more |
| `SwitchLocks.SuspendedEarly` | apps/relay/src/server/subscription.rs:1000-1027 | a run in which a switch suspends for an Object delivered before it began |
| `SwitchSeam.SoftSwitchMeets` | apps/relay/src/server/subscription.rs:870-948 | in every run after a soft switch whose boundary B ≥ 1 is the new subscription's Start Group, the old one sends subgroup Objects only below B and the new one only from B on |
| `SwitchSeam.DiscoveredBoundaryStops` | apps/relay/src/server/subscription.rs:1000-1027 | in every run after a soft switch without a Start Group, from its completing delivery of a group d ≥ 1 on, the old subscription sends subgroup Objects only below d |
| `SwitchSeam.NewSideExactly` | apps/relay/src/server/subscription.rs:863-868 | in every run, from the delivery on that completes a soft switch, by subgroup Object or datagram, the new subscription sends nothing below the boundary exactly if the boundary is its own Start Group, or is 0 |
| `SwitchSeam.DiscoveredBoundaryOverlaps` | apps/relay/src/server/subscription.rs:1000-1027 | a run in which, after a boundary found at group 7, both send an Object of group 5 |
| `SwitchSeam.HoleExactly` | apps/relay/src/server/subscription.rs:911-948 | of what the old one would have sent, a soft switch leaves to neither exactly what precedes the new one's start within the boundary group or lies past its end |
| `SwitchSeam.MeetsWithoutHoleExactly` | apps/relay/src/server/subscription.rs:911-920 | where the old one would have sent the boundary group's first Object and the new one has no end, everything the old one would have sent is left to one of the two exactly if the new one starts with its group's first Object |
| `SwitchSeam.NextObjectLeavesAHole` | apps/relay/src/server/subscription.rs:914-915 | a run in which, before anything is sent, a soft switch to the next Object leaves the first Object of its group to neither |
| `SwitchSeam.WhatBeginLeavesTheOldOne` | apps/relay/src/server/subscription.rs:911-948 | beginning a switch takes from the old subscription exactly the groups from the boundary on, and only if the switch is soft and the boundary is known and not 0 |
| `SwitchSeam.WhatCompletionLeavesTheOldOne` | apps/relay/src/server/subscription.rs:1000-1027 | completing a soft switch suspends the old subscription exactly when no start did and the group delivered is not 0 |
| `SwitchSeam.BoundaryZeroSuspendsNobody` | apps/relay/src/server/subscription.rs:919-924 | a run in which both subscriptions go on delivering after a completed soft switch |
| `SstsGate.MembershipMovesTheEpoch` | apps/relay/src/server/ssts/switching_set.rs:176-300 | the epoch never falls, and rises with every change of a track's set |
| `SstsMembers.InASetExactly` | apps/relay/src/server/ssts/switching_set.rs:176-300 | in every run, told from the steps alone, a track is in a set exactly while some request that assigned it was neither released nor removed with it, and those requests are its holders |
| `SstsMembers.ListedAsTold` | apps/relay/src/server/ssts/switching_set.rs:176-300 | in every run both tables agree, no set is empty, and each track's set, relay track ID and holders are what its own assignments, releases and removals add up to |
| `SstsMembers.StepKeepsTables` | apps/relay/src/server/ssts/switching_set.rs:251-300 | a release strikes that request, the track leaves its set exactly with the last one, and no other track's set or holders change |
| `SstsMembers.EpochMovesExactly` | apps/relay/src/server/ssts/switching_set.rs:176-340 | the epoch moves exactly with an assignment that is not refused, with what takes a track out of its set, and with an update of a track in one |
| `SstsDecisions.DecidedExactly` | apps/relay/src/server/ssts/mod.rs:155-185 | in every run a group is decided exactly if a decision was recorded for it and not forgotten since by a recording for another group when it was more than five behind, and the first decision recorded stands |
| `SstsDecisions.AskedInOrder` | apps/relay/src/server/ssts/controller.rs:96-210 | in every run the controller has yet to take exactly what was asked for, in order, without what it took |
| `SstsDecisions.LargestHeard` | apps/relay/src/server/ssts/controller.rs:96-210 | in every run the largest group heard of is the largest of those taken and timed out, or 0 |
| `SstsDecisions.LastGroupIsLargestTaken` | apps/relay/src/server/ssts/controller.rs:96-210 | in every run the group decided again after a timeout and at a tick is the largest of those taken |
| `SstsDecisions.ControllerExactly` | apps/relay/src/server/ssts/controller.rs:96-210 | what the controller does next after each message, timeout, tick, look at the sets, recording and notification |
| `SstsDecisions.CachedExactly` | apps/relay/src/server/subscription.rs:1162-1180 | the cached answer stands without resolving exactly if the stamp is of the group and of the present epoch |
| `SstsGate.StepKeepsInv` | apps/relay/src/server/subscription.rs:1162-1237 | every step of every resolver, of the controller and of the sets keeps what each resolver has read so far true for the epoch it sampled |
| `SstsGate.CurrentStampsAgree` | apps/relay/src/server/subscription.rs:472-487 | in every interleaving, a stamp that would be trusted for a group within the decision window is what a fresh resolution answers |
| `SstsGate.OneTrackForwards` | apps/relay/src/server/subscription.rs:1183-1237 | under current stamps two different tracks of a set never both forward such a group |
| `SstsGate.AgreementSurvivesExactly` | apps/relay/src/server/ssts/mod.rs:148-175 | a step keeps every current stamp right exactly if it does not prune the group of one |
| `SstsGate.SparingRunsAgree` | apps/relay/src/server/ssts/mod.rs:148-175 | so in a run whose steps spare them, all current stamps are right, whatever their group |
| `SstsGate.PrunedGroupForwardsTwice` | apps/relay/src/server/ssts/mod.rs:148-175 | a run in which two tracks of a set forward one group under current stamps |
| `SstsWaits.NoLostWakeup` | apps/relay/src/server/subscription.rs:1183-1237 | in every interleaving, a resolver whose decision is recorded and notified can go on |
| `SstsWaits.WokenResolverAnswers` | apps/relay/src/server/subscription.rs:1183-1237 | undisturbed, it then stamps exactly what a fresh resolution answers |
| `SstsWaits.WaitsOnlyForASetItLeft` | apps/relay/src/server/subscription.rs:1183-1237 | in every run, with no notification on its way, a resolver that waits although a fresh resolution answers, and cannot wake, waits for a set its track has left |
| `SstsWaits.GoesOnExactly` | apps/relay/src/server/subscription.rs:1183-1237 | in every run a resolver that still waits, not given up, can go on exactly if a notification came since it registered |
| `SstsWaits.UnansweredExactly` | apps/relay/src/server/ssts/controller.rs:96-210 | whatever sets there are and short of a new assignment, an Object that waits can only be given up exactly if nothing under way and nothing that can come brings a notification; if its track is in no set, it is to be forwarded all the same |
| `SstsWaits.WaitsBesideAnotherSet` | apps/relay/src/server/ssts/controller.rs:96-210 | a run in which an Object of a track taken out of its set waits in vain while another set is in use |
| `SstsWaits.TeardownDropsTheObject` | apps/relay/src/server/subscription.rs:645-654 | a run in which a track asks, is taken out of its set, and its Object waits unanswered until it is given up, while the next one is forwarded |
| `SstsWaits.NextObjectIsForwarded` | apps/relay/src/server/subscription.rs:645-654 | in every run, once a track is in no set and its gate idle, its next Object is forwarded, whatever its group and whatever was given up |
| `SstsWaits.LateEndsExactly` | apps/relay/src/server/ssts/mod.rs:158-175 | a decision without the track's set stays so exactly until the group is pruned or the track's set changes |
| `SstsWaits.LateIsNotAnswered` | apps/relay/src/server/subscription.rs:1211-1233 | on every path, while the track stays in the set and the group is not pruned, an Object of a group decided without that set is not answered, however often it is notified |
| `SstsWaits.LateTrackKeepsAsking` | apps/relay/src/server/ssts/controller.rs:103-108 | for any number of rounds a run in which a track that joined its set late is notified that often and still waits |
| `Filters.CombinesWhen` | libs/moqtail-rs/src/model/parameter/combined_filter.rs:67-114 | parameters combine exactly if each can be applied and no two have the same criterion and SetID |
| `Filters.CombinedRepresents` | libs/moqtail-rs/src/model/parameter/combined_filter.rs:67-114 | the combined filter has the Ranges of every filter given and nothing else |
| `FilterRanges.RangesExactly` | libs/moqtail-rs/src/model/parameter/range_filter.rs:230-255 | the Ranges of the deltas one by one, each start from the last end before it and each end from its start, and overflow exactly if one of these passes the largest number |
| `FilterRanges.Written` | libs/moqtail-rs/src/model/parameter/range_filter.rs:176-211 | Ranges can be written exactly if they are in order and only the last is open-ended, and what is written reads back |
| `FilterRanges.ValidExactly` | libs/moqtail-rs/src/model/parameter/range_filter.rs:257-281 | which filters are accepted, and which error each of the others gets |
| `FilterRanges.PassesExactly` | libs/moqtail-rs/src/model/parameter/combined_filter.rs:166-195 | an accepted filter lets through exactly what has the number it looks at within one of its Ranges |
| `FilterRanges.RefusedWith` | libs/moqtail-rs/src/model/parameter/combined_filter.rs:67-114 | parameters are refused with the error of the first that repeats an earlier one or is not accepted by itself |
| `FilterRanges.ForObjectsExactly` | libs/moqtail-rs/src/model/parameter/combined_filter.rs:116-124 | filters for Objects are refused further exactly if one selects tracks |
| `Filters.UpdatedExactly` | libs/moqtail-rs/src/model/parameter/message_parameter.rs:982-999 | an update leaves its own parameters, other than removals, and the current ones of the kinds and types it does not carry |
| `Filters.MatchesMeans` | libs/moqtail-rs/src/model/parameter/combined_filter.rs:166-195 | an Object matches exactly if there are no filters or some SetID's all pass it |
| `Filters.NoneMeans` | libs/moqtail-rs/src/model/parameter/combined_filter.rs:143-164 | narrowing leaves nothing exactly if filters exist and no SetID's track filters pass |
| `Filters.NarrowMeans` | libs/moqtail-rs/src/model/parameter/combined_filter.rs:143-164 | a narrowed filter passes an Object exactly if track and Object pass together |
| `Filters.Grouped` | apps/relay/src/server/filter_constructor.rs:117-126 | each SetID in use gets exactly its own filters, in their order |
| `Filters.FiltersForTrack` | apps/relay/src/server/filter_constructor.rs:107-167 | for all filters that combine, all tracks and all Objects: None exactly if filters exist and no SetID's track filters pass; otherwise the result combines, has only Object filters of the request, and passes exactly the Objects some SetID passes together with the track |
| `Filters.FillFilterMeans` | apps/relay/src/server/filter_constructor.rs:169-188 | a fill's filter always combines and is made of exactly the fill's filters and the subscription's of the kinds the fill does not carry |
| `SubscriptionManager.Manager.constructor` | apps/relay/src/server/subscription_manager.rs:54-75 | no subscription, and the indexes agree |
| `SubscriptionManager.Manager.AddSubscription` | apps/relay/src/server/subscription_manager.rs:105-168 | refused exactly if the ID is taken, with nothing changed; otherwise a new subscription with its own empty queue, in all three indexes |
| `SubscriptionManager.Manager.RemoveSubscription` | apps/relay/src/server/subscription_manager.rs:206-243 | that ID alone leaves every index, its subscription cancelled, and no connection keeps an empty set |
| `SubscriptionManager.Manager.RemoveSubscriptions` | apps/relay/src/server/subscription_manager.rs:275-290 | exactly the connection's subscriptions go, all of them cancelled, and no other is |
| `SubscriptionManager.Manager.DetachAll` | apps/relay/src/server/subscription_manager.rs:245-273 | everything leaves every index and nothing is cancelled |
| `SubscriptionManager.Manager.SendEvent` | apps/relay/src/server/subscription_manager.rs:297-339 | the event enters the queue of every live subscription with an open channel once, and no other queue; the IDs returned are those with a closed channel, each once |
| `SubscriptionManager.NotedWith` | apps/relay/src/server/subscription_manager.rs:154-158 | noting a request adds that ID alone and leaves no empty set |
| `SubscriptionManager.NotedWithout` | apps/relay/src/server/subscription_manager.rs:215-221 | striking a request removes that ID alone and leaves no empty set |
| `IndexLocks.RunKeeps` | apps/relay/src/server/subscription_manager.rs:105-290 | in every interleaving, lock by lock, an ID listed in one index only is one an operation under way accounts for, or is lost for good |
| `IndexLocks.AgreesExactly` | apps/relay/src/server/subscription_manager.rs:245-254 | in every run, when nobody is part way through, the three indexes agree on an ID exactly if its addition did not end while a detachment had yet to reach its partition |
| `IndexLocks.AgreesWithoutDetaching` | apps/relay/src/server/subscription_manager.rs:105-243 | without detachments, additions and removals in any interleaving leave the three indexes equal |
| `IndexLocks.SomeoneMoves` | apps/relay/src/server/subscription_manager.rs:105-254 | while some operation has not ended, one of them has the lock it needs |
| `IndexLocks.AllCanEnd` | apps/relay/src/server/subscription_manager.rs:105-254 | every run can be carried on until all operations have ended |
| `IndexLocks.AddedWhileDetaching` | apps/relay/src/server/subscription_manager.rs:245-254 | for every ID a run, ended by all, that leaves it subscribed and in no other index |
| `TokenBucket.Limiter.Consume` | apps/relay/src/server/client.rs:77-92 | tokens stay between 0 and one second's worth |
| `TokenBucket.Limiter.GiveUp` | apps/relay/src/server/client.rs:77-87 | a call dropped in its sleep leaves the bucket refilled and takes nothing |
| `TokenBucket.RateBound` | apps/relay/src/server/client.rs:66-92 | in every run, calls dropped in their sleep included: the exact number of bytes admitted, hence at most R + R·elapsed + R·asleep and R + 2R·elapsed; what is lost is lost by a full bucket only |
| `TokenBucket.SpillsOnlyWhenFull` | apps/relay/src/server/client.rs:66-92 | no token is lost unless the bucket is full, and refilling in between changes nothing |
| `TokenBucket.SleepsExactly` | apps/relay/src/server/client.rs:66-92 | a call sleeps exactly if it needs more than it finds, and then leaves the bucket empty |
| `TokenBucket.KeepsTheRateExactly` | apps/relay/src/server/client.rs:77-92 | in every run, a call keeps to R + R·elapsed exactly if, before it, the sleeps so far are covered by what it will leave, what has spilled and what spills now |
| `TokenBucket.TwiceTheRate` | apps/relay/src/server/client.rs:80-87 | for every rate and n, a run that admits 2R·n bytes in n seconds |
| `StreamPriority.Unpacks` | apps/relay/src/server/utils.rs:94-114 | subscriber priority, publisher priority and place in the band can be read back from the number |
| `StreamPriority.BandsDecide` | apps/relay/src/server/utils.rs:94-114 | subscriber priority, then publisher priority, decide between any two streams, whatever their groups and orders |
| `StreamPriority.RanksLexicographically` | apps/relay/src/server/utils.rs:94-114 | under one order the ranking is exactly the lexicographic one, and equal numbers mean equal priorities and equal groups modulo 65536 |
| `StreamPriority.FollowsGroupOrder` | apps/relay/src/server/utils.rs:94-114 | within an aligned block of 65536 groups the group order is followed |
| `StreamPriority.TurnsOverAtABlock` | apps/relay/src/server/utils.rs:107-113 | at every block boundary it is not |
| `StreamPriority.OrdersMeet` | apps/relay/src/server/utils.rs:110-113 | streams of opposite orders share a number exactly if their places mirror each other |
| `Routing.BelongsTo` | apps/client/src/routing.rs:209-225 | the holders of the alias whose window covers the Location, or all holders if none does |
| `Routing.FillOwner` | apps/client/src/routing.rs:240-244 | the one subscription the fill's request, or the request it updates, names, if there is one |
| `Routing.Router.Route` | apps/client/src/routing.rs:205-234 | every subscription the object belongs to has it afterwards; those that lacked it are the owners, in order, and the others are counted |
| `Routing.Router.RouteFill` | apps/client/src/routing.rs:236-251 | the same for a fill's object and the one subscription that asked |
| `Routing.OwnersAre` | apps/client/src/routing.rs:226-234 | the owners are exactly the ones that lacked the Location, each once |
| `Routing.TakenAtMostOnce` | apps/client/src/routing.rs:209-251 | in every run of live and fill deliveries, updates and subscriptions with unique Request IDs, no subscription takes a Location twice, what was taken is exactly what is seen, and every subscription made is there with its alias and window |
| `Routing.HeldAliasIsServed` | apps/client/src/routing.rs:205-234 | an object under a held alias reaches at least one holder and nobody else |
| `Stats.ReceptionStats.RecordObject` | apps/client/src/stats.rs:108-162 | the sequence check and its effect on the one track, and the totals still the sums |
| `Stats.ReceptionStats.RecordFilteredObject` | apps/client/src/stats.rs:164-192 | the violation count and its effect on the one track, and the totals still the sums |
| `Stats.ReceptionStats.RecordFillObject` | apps/client/src/stats.rs:198-206 | a fill object counts apart from the sequence, and the totals are still the sums |
| `Stats.ReceptionStats.PerTrack` | apps/client/src/stats.rs:208-233 | one correct line for each subscription that received anything, in ascending order, and the lines add up to all four totals |
| `Stats.AddsUpStill` | apps/client/src/stats.rs:108-206 | when one line and the totals move by the same amounts, the totals stay the sums of the lines |
| `Stats.LinesSum` | apps/client/src/stats.rs:208-233 | listing the non-empty lines in ascending order loses nothing of the sum over all subscriptions |
| `StatsGaps.GapsAreTold` | apps/client/src/stats.rs:108-162 | the gaps of a subscription are exactly the Objects that were neither the next of the group before nor the first of the group its span leads to, told from the arrivals alone |
| `StatsGaps.ViolationsAreTold` | apps/client/src/stats.rs:164-192 | the violations are exactly the Objects that did not pass, and none of them counts as a gap |
| `Reception.Receiver.Receive` | apps/client/src/subscriber.rs:552-580 | each subscription an object belongs to counts it or had it already: received and duplicates together grow by exactly their number, and every subscription's count stays the number of Locations it has |
| `Reception.Receiver.Report` | apps/client/src/subscriber.rs:734-745 | each line's count is the number of distinct Locations its subscription has, no such subscription is missing, and the lines add up |
| `Reception.CountsStillMatch` | apps/client/src/subscriber.rs:686-712 | counting once for each owner keeps counts and Locations equal |
| `Signalling.SignalRoundTrip` | apps/meet/src/moq/signalling.ts:36-41 | every signal reads as what was written, whichever pattern is tried first |
| `Signalling.HandleKeepsInv` | apps/meet/src/moq/signalling.ts:147-183 | handling a signal, in any order, keeps every session's knowledge true and every answer traceable |
| `Signalling.NoPairIsMissed` | apps/meet/src/moq/signalling.ts:126-195 | in every run, once all signals are handled, any two joined sessions of different names know each other, and of two of the same name the later one was told |
| `Signalling.NothingIsInvented` | apps/meet/src/moq/signalling.ts:147-183 | at every moment, every peer a session knows of exists, and a session told it is a duplicate is one |
| `Signalling.EveryAnswerHasItsJoin` | apps/meet/src/moq/signalling.ts:160-183 | every welcome and duplicate_user in the log follows a join with its receiver's name and token |
| `SignallingRuns.CanHandleExactly` | apps/meet/src/moq/signalling.ts:147-183 | in every run a session can handle exactly the signals sent after it subscribed that it has not handled yet |
| `SignallingRuns.QuietCanBeReached` | apps/meet/src/moq/signalling.ts:147-183 | from every moment of every run, handling alone leads to a room in which everything that reached a session has been handled |
| `MsfUrl.EncodeField` | apps/client-js/src/lib/msf-url.ts:42-54 | the loop computes the encoding that the lemmas below are about |
| `MsfUrl.DecodeField` | apps/client-js/src/lib/msf-url.ts:56-69 | the loop computes the decoding, malformed escapes included |
| `MsfUrl.FieldRoundTrip` | apps/client-js/src/lib/msf-url.ts:42-69 | every field, of any bytes, decodes to itself |
| `MsfUrl.FieldIsPlain` | apps/client-js/src/lib/msf-url.ts:42-54 | an encoded field has only letters, digits, underscores and periods, so no hyphen and no ampersand |
| `MsfAlphabet.EscapeExactly` | apps/client-js/src/lib/msf-url.ts:42-54 | letters, digits and the underscore are written as they are, any other byte as a period and its two hexadecimal digits in lower case |
| `MsfAlphabet.ParsedByteExactly` | apps/client-js/src/lib/msf-url.ts:60-62 | a period and any two units are read as parseInt reads them, modulo 256, and as 0 where that is not a number |
| `MsfUrl.FirstDashes` | apps/client-js/src/lib/msf-url.ts:90-92 | a pair of hyphens stands there and none before it |
| `MsfUrl.BoundaryIsFirst` | apps/client-js/src/lib/msf-url.ts:90-92 | the first pair of hyphens is where the namespace ends, whatever the track name |
| `MsfUrl.SplitJoin` | apps/client-js/src/lib/msf-url.ts:95 | parts without the separator split as they were joined |
| `MsfUrl.IdentifierRoundTrip` | apps/client-js/src/lib/msf-url.ts:87-97 | any non-empty list of non-empty fields and any optional track name read back as they were, whatever parameters follow |
| `MsfUrl.BuiltIsInjective` | apps/client-js/src/lib/msf-url.ts:120-124 | different identifiers have different values |
| `MsfUrl.ValueRoundTrip` | apps/client-js/src/lib/msf-url.ts:87-124 | for every namespace and track name, the name reads back and the namespace reads back without its empty fields |
| `MsfUrl.NamespaceRoundTripsExactly` | apps/client-js/src/lib/msf-url.ts:87-124 | a namespace reads back as it was exactly if it is empty or has no empty field |

## Left out

- QUIC and WebTransport sessions, TLS, configuration and all wire codecs: a send is an append to a stream or a log. Whether a stream could be opened is a parameter of `Delivery`, and whether an Object could be written one of `Switching`; a write the peer refuses counts as sent, as in the source, and `Delivery.Subscription.PeerStops` follows it.
- The eviction policy and expiry of the group store: eviction is an arbitrary step.
- Memory ordering and poisoned locks: atomics are sequentially consistent. In `SstsGate`, `SstsWaits`, `StreamWrites`, `SwitchLocks`, `IndexLocks` and `FillClaims` each lock-protected section is one step.
- Events interleaved within: in `Delivery`, `Switching`, `SwitchSeam` and `SwitchDone` a whole Object, update or switch is one step, though in the last three an Object can be dropped at each point on the way to completing a switch or ending a drain. What other tasks do in its midst is modelled for the gate (`SstsWaits`), the writing of a stream (`StreamWrites`) and the taking of plans (`SwitchLocks`), and the five-second limit of the event loop for these and the rate limiter (`TokenBucket`).
- `StreamWrites` ends where the subgroup's stream ends upstream: closing the stream and forgetting its last ID then are in `Delivery`. `SwitchLocks` leaves out windows and the end of a subscription, after which nothing is delivered.
- The switching algorithms themselves: a decision is any choice for the sets the controller saw. The controller's queue is unbounded and the controller never leaves; slot counting in `apps/relay/src/server/client.rs` is not modelled.
- `takeover_group` and the group-gap bookkeeping of a subscription: dead code.
- Datagrams around a soft switch: they go out past the boundary until the switch is known to be real (`SwitchWindows.DatagramExactly`), so the seam is stated for subgroup Objects only.
- `Switching`, `SwitchSeam`, `SwitchDone`, `SwitchLocks` and `SstsGate` model the shared objects and atomics of several subscriptions as values of one state machine, not as objects: what is not captured is aliasing between the relay's handles.
- `Signalling` models the reader loop as one step per signal in any order: group numbering, callbacks other than learning of a peer or a duplicate, and a session that joins although its SUBSCRIBE was refused are not modelled.
- `SeenObjects.Detector`: the ring of slots is a sequence that is reassigned, with each slot's bitmap an array edited in place; the per-slot locks are not modelled.
- `object_filter`, `updated_filter` and `tracks_filter` beyond what a fill needs, the limits on the number of ranges, and the extraction of properties from Objects: mostly one-branch checks. Only the first error of a failing filter is modelled, not its text.
- `SubscriptionManager.Manager`: track aliases, the message that led to a subscription, and the per-connection tables `detach_all` clears are not modelled; the hash is any function, not FNV.
- `Stats.ReceptionStats`: counters are unbounded; parse errors, the Prior Group ID Gap's extraction and the textual report are not modelled.
- `Routing.Router`: labels, and the Range Filters a subscription replaced with their grace period; whether a delivered object passed is a parameter of `Reception.Receiver.Receive`. The window is given rather than computed from request parameters.
- `TokenBucket.Limiter`: real arithmetic instead of floating point, and a sleep of exactly the time asked for.
- `MsfUrl.DecodeField`: the conversion between bytes and text at either end is not modelled, nor is the parsing of the URL around the fragment.
- The request streams, prefix subscriptions and client registry of the relay, and the user interfaces, media pipelines and players: not part of this model.
