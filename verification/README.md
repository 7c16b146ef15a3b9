# Rate-adjusting PCM ring: verified model

A Dafny model of a lock-free single-producer, single-consumer PCM ring that
converts between two unlocked sample clocks, conceals missing source, mutes
announced source intervals and plays finite bursts to an exact end. It models
`src/ring.rs`, `src/mute.rs` and `src/plc.rs`; the sample-rate converter behind
them stays abstract. `dafny verify dfyconfig.toml` checks everything.

## How it is built

Every part exists twice where the source works by changing things in place: as a
class whose methods do what the Rust methods do, and as functions on values. The
methods are proved to compute the functions; the promises are proved about the
functions, over whole runs.

| concern | values and their laws | in place |
|---|---|---|
| lock-free cursors | `TwoLap`, and `Spsc`: each load, payload access and store a step | `Ring`, `MuteStorage` |
| finish word, reset epoch | `Handoff`: each load and store a step | `Ring`, `Consumer` |
| mute intervals | `Mute` | `MuteStorage` |
| loss concealer | `PlcSpec`, `PlcLaws`, `PlcPitch`, `PlcSeam`, `PlcFade`, `PlcWave`, `PlcRecovery` | `Plc`, `Lookahead` |
| admission, clock control | `Settings`, `SettingsDrift` | `Conversion` |
| source stamps | `Producer` | `Ring` |
| refill, playout, ending, reset | `Engine`, `EngineSource`, `EngineBounds`, `EngineTime`, `EnginePlay`, `EngineRoom`, `EngineEnding`, `EngineLive`, `EngineMarks`, `EngineBurst`, `EngineMute`, `EngineLookahead`, `EngineStall`, `EngineStamps`, `EngineFaults`, `PassThrough`, `PassDelayed` | `Conversion`, `Consumer` |
| the views agree | `Agreement`, `HandoffSteps`, `EndpointRuns` | |

`Engine` takes everything the consumer does not own as parameters: the slots its
takes obtain, the counts it reads, the finish word, the mailbox records and the
adapter's raw replies. `EngineSource`, `EnginePlay` and `EngineEnding` allow any
replies at all. `Agreement` shows that every run of what the class methods compute
is a run of the world these theorems speak of; `HandoffSteps`, that until a slot is
refused it is also a run of the single loads and stores `Handoff` interleaves.

## Assumptions

- **Any adapter**: a delay is accepted only if not negative, a conversion only
  within the lengths offered, as `src/samplerate_adapter.rs` checks.
- **Retention** (`EngineBounds.Retained`): the adapter is never further behind
  than one capacity and its FIR history, the bound `src/ring.rs:316-320` states.
- **Healthy adapter** (`EngineTime.Healthy`): retention; the position of the next
  output, accepted minus delay, is the same from one call to the next and moves
  on by a billionth of a frame or more with every output; nonempty input makes
  progress. `PassThrough` is an adapter that meets all of it.
- **Callers** (`Handoff.Respectful`, `Producer.Contractual`): the producer is
  quiescent during a reset, publishes again after a finish only once its outcome
  is reported, and starts a new stamp generation only after a reset. Where the
  contract is needed there is a run that breaks without it
  (`Handoff.FreshIffNotPending`, `Producer.UnannouncedGenerationFaults`).

## Main results

- Whatever the adapter answers and however publication interleaves, until a
  refused slot what it was fed, what waits and what is in the FIFO are together
  exactly the published slots, in order, once each: `EnginePlay.RunConservesStream`,
  and of the class and its ring `Agreement.EndpointsConserveStream`. With an adapter
  that keeps its retention bound and a producer that keeps to one generation per
  reset no slot ever is refused: `EndpointRuns.EndpointsLoseNothing`.
- A boundary reported drained was played: `EnginePlay.DrainedMeansPlayed`; the
  outputs played are exactly those made before its end:
  `EngineBurst.BurstPlaysExactlyItsOwn`; then the lookahead, sample by sample:
  `EngineEnding.LookaheadIsPlayedOut`.
- Over every healthy run each output is missing exactly if the slot under its
  position was a gap, and converting 256 at once marks as converting one at a time:
  `EngineMarks.EveryOutputIsMarkedExactly`, `EngineMarks.FastPathRefinesSlow`.
- A sample is silenced exactly if its own support meets an interval received by
  then: `EngineMute.MutingIsExact`, on `Mute.HistoryRefinesNaive` and
  `EngineLookahead.TagsEmergeInOrder`; on the producer's own timeline, exactly if an
  interval holds the stamp of its slot: `EngineStamps.CoveredSlotIsSilent`.
- No interleaving loses a store to the finish word: `Handoff.EveryStoreSurvives`;
  whole calls are runs of those interleaved steps: `HandoffSteps.RunIsHandoffRun`.
- A healthy adapter never causes an adapter error and every burst ends:
  `EngineLive.NoFalseAdapterError`, `EngineBurst.BurstResolvesAtPace`.
- An adapter that only keeps its retention bound never exhausts the gap list:
  `EngineRoom.GapListNeverFull`.
- Playout starts exactly when it should and stops for nothing but an outcome or a
  reset: `EngineStall.PlayoutStartsExactly`, `EngineStall.NoRepriming`.
- A failed reset is silent until one succeeds, a mute fault fails closed, and a
  refill fails exactly on a listed set of conditions, each reported:
  `EngineEnding.FailedResetIsSilent`, `EngineEnding.FaultHoldsBoundary`,
  `EngineFaults.RefillFailsExactly`, `EngineFaults.FailureIsReported`.
- The clock correction drains an overfull system and fills an underfull one, with its
  exact limits: `SettingsDrift.DesiredSteersBack`, `SettingsDrift.OverfullIsDrained`,
  `SettingsDrift.UnderfullIsFilled`.
- With the pass-through adapter what is heard is what was published, at once
  without the concealer and one lookahead later with it:
  `PassThrough.WhatIsPublishedIsHeard`, `PassDelayed.WhatIsPublishedIsHeardDelayed`;
  and every call that finds a slot plays the next one: `PassThrough.StreamIsHeard`.
- A reset concealer cannot be told from a new one, its state stays in range at
  every rate, and it carries a periodic wave through loss without a jump:
  `PlcLaws.ResetIsFresh`, `PlcLaws.LossStateInvariant`,
  `PlcWave.LossContinuesThePeriod`, `PlcRecovery.RecoveryCrossfades`. Of any history
  it takes the highest-scoring lag, repeats the last pitch with its end joined, and
  fades every change in linearly: `PlcPitch.PitchIsHighest`,
  `PlcPitch.PeriodScoresHighest`, `PlcSeam.LossRepeatsThePitch`, `PlcFade.LossExpands`,
  `PlcFade.RecoveryMixes`.

## Model

| member | source | states |
|---|---|---|
| TwoLap.WriteIsInvisible | src/ring.rs:429-433 | filling the owned slot changes no readable entry, for any capacity |
| TwoLap.PublishAppends | src/ring.rs:434-436 | advancing the written cursor modulo two laps appends exactly that slot to the queue |
| TwoLap.ReleaseRemoves | src/ring.rs:605-611 | the slot read is the oldest entry, and advancing the read cursor removes exactly it |
| TwoLap.EmptyIffEqual | src/ring.rs:602-604 | equal cursors mean an empty queue and nothing else does |
| TwoLap.DistanceCases | src/ring.rs:841-844 | the modular distance of two valid cursors is their forward gap, once around if the writer has wrapped |
| Spsc.RunKeeps | src/ring.rs:407-437 | in every interleaving of loads, payload accesses, stores, discards and a third observer the cursors show counts that never cross nor drift apart beyond capacity, and every unread slot holds its entry |
| Spsc.StepRefinesQueue | src/ring.rs:599-612 | each atomic step is one step of an unbounded FIFO or none: publish appends the whole batch, release removes the very item copied, discard drops a prefix |
| Spsc.ReachableDistance | src/ring.rs:841-844 | in every reachable state the wrapped arithmetic equals the true published-minus-consumed count, at most capacity |
| Spsc.NoSharedSlot | src/ring.rs:231-240 | the slot being filled is no published, unreleased one, so payload accesses never race |
| Spsc.BystanderCount | src/ring.rs:833-837 | an observer loading the cursors at different moments never sees more than capacity, and sees the true count unless the consumer overtook its first load |
| Spsc.RawDistanceCanExceedCapacity | src/ring.rs:836 | without the clip such an observer can see more than capacity: a run from an empty queue of two slots shows it |
| Spsc.FillKeeps | src/mute.rs:76-94 | filling ahead of an unpublished batch with an old read snapshot stays inside the producer's own slots |
| MuteStorage.Clipped | src/mute.rs:79-83 | what a batch contributes: nonempty spans of its generation, none past the accepted end |
| MuteStorage.ClippedCovers | src/mute.rs:79-83 | a batch mutes a source sample exactly if some announced span holds it and it lies before the accepted end |
| MuteStorage.Mailbox.constructor | src/mute.rs:54-68 | starts empty |
| MuteStorage.Mailbox.Free | src/mute.rs:70-74 | the credit is the number of records that still fit |
| MuteStorage.Mailbox.Publish | src/mute.rs:76-94 | appends exactly the clipped, nonempty spans in order, visible only with the final cursor store |
| MuteStorage.Mailbox.Pop | src/mute.rs:96-105 | yields and removes the oldest record, nothing if empty |
| MuteStorage.Mailbox.Reset | src/mute.rs:107-110 | discards everything published |
| Mute.InsertAdds | src/mute.rs:127-150 | a successful insert keeps the list sorted, disjoint and not touching and covers exactly the old union and the new interval; it fails exactly if the list is full and nothing merges |
| Mute.FullMeansUnchanged | src/mute.rs:142-144 | an insert that fails has left the list as it was |
| Mute.AbsorbSeparates | src/mute.rs:128-141 | one pass suffices: after it no remaining entry touches the grown interval |
| Mute.AbsorbCovers | src/mute.rs:134-137 | the pass covers exactly what the list and the interval covered |
| Mute.LookupIsExact | src/mute.rs:152-162 | looking at one entry answers whether any covered sample lies in the support |
| Mute.RetireSpares | src/mute.rs:164-172 | retiring drops nothing of the generation at or after the position |
| Mute.RetireDropsPassed | src/mute.rs:164-172 | of a separated list retiring leaves no interval of the generation that ends by the position |
| Mute.HistoryCoversNaive | src/mute.rs:113-173 | after any mix of inserts and non-decreasing emissions the bounded list covers, from the last emission on, exactly the union of all accepted spans |
| Mute.HistoryRefinesNaive | src/mute.rs:113-173 | so every later lookup answers as the never-pruned set of all accepted spans would |
| MuteStorage.History.Insert | src/mute.rs:127-150 | in place: the new separated union, or refusal with the list unchanged |
| MuteStorage.History.AbsorbTouching | src/mute.rs:128-141 | the removing loop computes the single pass |
| MuteStorage.History.PartitionPoint | src/mute.rs:145-147 | the binary search finds the boundary of the smaller keys |
| MuteStorage.History.Muted | src/mute.rs:152-162 | true exactly if some covered sample lies in the support; without a position false |
| MuteStorage.History.Retire | src/mute.rs:164-172 | drops the leading entries the emitted position has passed, nothing without a position |
| MuteStorage.History.Clear | src/mute.rs:123-125 | empties the list |
| Handoff.EveryStoreSurvives | src/ring.rs:565-576 | in every interleaving the stores to the finish word alternate pending and one outcome with tokens rising by one; the word is the last store, and a captured boundary means pending for exactly its token |
| Handoff.OutcomeIsFinal | src/ring.rs:579-590 | a reported outcome is never reported differently later |
| Handoff.BoundaryIsExact | src/ring.rs:634-643 | while a boundary is pending nothing is published, so the captured end is the whole burst |
| Handoff.AcknowledgedMeansEmpty | src/ring.rs:773-800 | when an outcome is acknowledged no slot of the burst is left in the FIFO, given that a drained completion begins at the captured end, which `HandoffSteps.CallIsHandoffRun` shows of every call |
| Handoff.PublicationsAreFresh | src/ring.rs:534-542 | under the caller contract every slot is published in the current reset epoch |
| Handoff.FreshIffNotPending | src/ring.rs:407-411 | a publication call is sure to be in the current epoch if and only if no finish is pending when it begins: the epoch is sampled before the gate |
| Handoff.PendingCanBeOvertaken | src/ring.rs:408-411 | from every idle state with a boundary pending there is a run in which the slot goes out under the old epoch |
| PlcSpec.Geometry | src/plc.rs:47-73 | the derived lengths fit each other at every nonzero rate: a quarter of the longest pitch fits the lookahead, lag and analysis window fit the history |
| PlcSpec.SizesCoverDurations | src/plc.rs:47-73 | each length is the least that covers its duration in milliseconds at any rate; at 8 kHz the sizes of ITU-T G.711 Appendix I |
| PlcSpec.QuarterFits | src/plc.rs:48-50 | three cycles of any admissible pitch and a quarter fit the history |
| PlcSpec.Pitch | src/plc.rs:105-141 | the detected pitch lies between the shortest and the longest lag; which one it is, the rows of `PlcPitch` say |
| PlcLaws.LossStateInvariant | src/plc.rs:144-223 | after every call history the cycle is one, two or three pitches as the loss has passed neither, one or both expansion points, the phase is inside it, overlap and recovery are bounded |
| PlcLaws.ResetIsFresh | src/plc.rs:36-44 | after any history a reset concealer answers every later call as a new one, though much of its state is stale |
| PlcLaws.OnsetSparesPlayed | src/plc.rs:156-158 | the onset overlap-add rewrites at most the lookahead: nothing that has been played |
| PlcLaws.CallMoves | src/plc.rs:77-102 | every call moves both delay lines by one and plays the head of the lookahead |
| PlcLaws.EntryEmerges | src/plc.rs:82-88 | a sample is played exactly one lookahead later, with its own real flag, unchanged unless an onset in between reaches it |
| PlcLaws.GainEnvelope | src/plc.rs:251-253 | unity through ten milliseconds, never rising, strictly between until sixty and exactly zero from there |
| PlcLaws.GainIsLinear | src/plc.rs:251-253 | between ten and sixty milliseconds the gain falls by the same step with every lost sample, from one to zero |
| PlcLaws.SustainedLossIsSilent | src/plc.rs:199-211 | sixty milliseconds of loss and the lookahead later the output is exact silence, never real |
| PlcLaws.RangeIsKept | src/plc.rs:226-260 | in-range input never makes a stored or played sample out of range, through any mix of loss, expansion and recovery |
| PlcLaws.ScoreOrders | src/plc.rs:106-121 | of any two lags the one with the larger correlation over the root of its energy has the larger score, so every comparison of the search comes out as in the source |
| PlcPitch.CoarseIsHighest | src/plc.rs:122-130 | no lag of the coarse search, every second one between the bounds, scores higher than the one found |
| PlcPitch.FineIsHighest | src/plc.rs:131-139 | nor at full rate any neighbour of the coarse pitch within the bounds |
| PlcPitch.PitchIsHighest | src/plc.rs:105-141 | so the pitch is within one of the best coarse lag, and at full rate none of these scores higher |
| PlcPitch.CorrelationBound | src/plc.rs:106-121 | the square of a correlation never exceeds the product of the two energies |
| PlcPitch.PeriodScoresHighest | src/plc.rs:106-121 | so a lag over which the analysed window repeats scores at least as high as any other lag |
| PlcSeam.SeamCloses | src/plc.rs:162-173 | of any buffer the join rewrites the last quarter alone, each sample on the line from the saved one to the one a cycle before with weights in equal steps, and the last equals the sample just before the cycle |
| PlcSeam.OnsetJoins | src/plc.rs:144-159 | at the onset of a loss after any history that join is made in the unplayed lookahead and in the frozen copy alike, and nothing before it changes |
| PlcSeam.LossRepeatsThePitch | src/plc.rs:199-211 | after any history the first ten milliseconds are its last pitch, end joined, over and over at full level |
| PlcFade.ExpansionCrossfades | src/plc.rs:183-196 | from any oscillator state a longer cycle fades in over a quarter pitch along the line from the shorter cycle's next samples to its own |
| PlcFade.ExpansionJoins | src/plc.rs:193-194 | and the longer cycle has its own end joined to the frozen history one longer cycle before |
| PlcFade.LossExpands | src/plc.rs:199-223 | in any loss the expansions at ten and twenty milliseconds are such cross-fades, up to the envelope |
| PlcFade.RecoveryMixes | src/plc.rs:226-248 | after any loss returning audio fades in along the line from the continued oscillator, at the level the loss had, and then is exactly the input |
| PlcWave.BlendRamps | src/plc.rs:257-260 | the overlap-add weights sum to one, rise strictly and end on the new sample |
| PlcWave.LossContinuesThePeriod | src/plc.rs:144-223 | over a history of the detected period the loss continues the wave sample by sample through onset and both expansions, only scaled by the envelope |
| PlcWave.SmoothTailOfPeriodic | src/plc.rs:162-173 | joining the tail of a periodic wave changes nothing |
| PlcRecovery.RecoveryGrowsWithLoss | src/plc.rs:228-231 | in the k-th started ten milliseconds after the first the overlap is a quarter pitch and k times four milliseconds, ten at most |
| PlcRecovery.RecoveryCrossfades | src/plc.rs:226-248 | after a loss that carried a wave on, returning audio fades in linearly over that length from the wave, still in phase and at the level the loss had, and then is exactly the input |
| Plc.Plc.constructor | src/plc.rs:47-73 | starts as the fresh concealer of its rate, with its own storage |
| Plc.Plc.Reset | src/plc.rs:36-44 | clears history, flags, loss and recovery in place and nothing else |
| Plc.Plc.Score | src/plc.rs:106-121 | the two accumulating loops compute the score of a lag, the normalized correlation squared with its sign kept |
| Plc.Plc.DetectPitch | src/plc.rs:105-141 | coarse then full-rate search yields the specified pitch |
| Plc.Plc.BeginLoss | src/plc.rs:144-159 | freezes the circular history in order, detects the pitch, joins the tail and writes it back at the wrapped position, as specified; what the join is, `PlcSeam.OnsetJoins` states |
| Plc.Plc.SmoothCycleTail | src/plc.rs:162-173 | the blending loop computes the specified join, whose samples `PlcSeam.SeamCloses` states |
| Plc.Plc.Continuation | src/plc.rs:176-180 | plays the oscillator's sample and steps its phase |
| Plc.Plc.ExpandCycle | src/plc.rs:183-196 | records the overlap ahead, folds the phase by whole pitches and lengthens the cycle by one |
| Plc.Plc.FoldPhase | src/plc.rs:190-192 | subtracts whole pitches until at most one is left |
| Plc.Plc.Substitution | src/plc.rs:214-223 | one oscillator sample, finishing an expansion overlap first |
| Plc.Plc.Conceal | src/plc.rs:199-211 | one concealed sample and the loss count stopping at the machine word |
| Plc.Plc.Recover | src/plc.rs:226-248 | returning PCM overlaps the continued wave for the computed length |
| Plc.Plc.LossGain | src/plc.rs:251-253 | the gain of the current loss count |
| Plc.Plc.Process | src/plc.rs:77-89 | one call on the circular buffers is the specified call on the un-rotated history |
| Plc.Plc.DrainSample | src/plc.rs:94-102 | releases the oldest sample and flag, appends silence that is not real |
| Settings.BudgetIsExact | src/ring.rs:80-89 | the integer ceiling admits exactly the frame counts with which the largest callback fits at the slowest ratio |
| Settings.AdmissionIsExact | src/ring.rs:64-101 | a policy is admitted exactly if sizes and rates are in range with at most a factor 256 between the rates and, with the concealer, the reserve covers the largest callback at the slowest ratio with a frame to spare below a target that leaves room for the largest block |
| Settings.ReserveCoversCallback | src/ring.rs:93-98 | an admitted concealing ring's reserve less one covers any callback at every ratio the controller can reach |
| Settings.RatioStaysInRange | src/ring.rs:1035-1050 | over every run of observations the ratio stays within nominal times 0.999 to 1.001, clipped to the adapter's bounds |
| Settings.OccupancyStaysInHull | src/ring.rs:1025-1031 | the filtered occupancy stays within the hull of what was observed |
| Settings.Filtered | src/ring.rs:1029-1030 | one filter step stays between the old value and the observation, and moves once they are 128 apart |
| SettingsDrift.DesiredSteersBack | src/ring.rs:1037-1045 | above the target the desired ratio is below nominal and below it above, a thousandth at most, exactly that from one target off, up to the adapter's bounds |
| SettingsDrift.DesiredNeverRises | src/ring.rs:1037-1045 | a fuller system never gets a larger desired ratio |
| SettingsDrift.NoTargetIsNominal | src/ring.rs:1037-1038 | with target zero there is no correction |
| SettingsDrift.RatioApproachesDesired | src/ring.rs:1046-1051 | one step moves the ratio a 512th of the way to the desired one, so it rises exactly if it is below that; with nothing observed or in a finite tail it stays |
| SettingsDrift.FirstRatioIsNominal | src/ring.rs:1046-1058 | the first call starts from the nominal ratio |
| SettingsDrift.OverfullIsDrained | src/ring.rs:1024-1051 | over any run of readings above the target from a nominal ratio the ratio never exceeds nominal, and is below it, where the bounds allow, once a call has steered |
| SettingsDrift.UnderfullIsFilled | src/ring.rs:1024-1051 | and never is below it over readings under the target |
| SettingsDrift.RatioOnlyFalls | src/ring.rs:1024-1051 | the ratio never rises over readings that do not fall, once it is at least the desired one, as it is from nominal above the target |
| SettingsDrift.RatioOnlyRises | src/ring.rs:1024-1051 | and never falls over readings that do not rise, once it is at most the desired one |
| SettingsDrift.OverfullMayRecover | src/ring.rs:1046-1051 | readings that do not fall are needed: a reading above the target, but below the one before, with which the ratio rises again, towards nominal |
| Producer.StampsNeverFence | src/ring.rs:417-428 | under the caller contract any mix of tagged blocks, untagged pushes, gaps and partial acceptances leaves consecutive stamps, so the consumer's fence never trips |
| Producer.TaggedBlockContinues | src/ring.rs:483-488 | behind a stamped slot a tagged block keeps the stamps consecutive if and only if it has the running generation and continues its source count |
| Producer.UnannouncedGenerationFaults | src/ring.rs:460 | the source accepts a second generation without a reset and the consumer faults on it |
| Ring.Ring.constructor | src/ring.rs:281-395 | starts empty, unstamped, with no finish requested |
| Ring.Ring.ProducerPublish | src/ring.rs:407-437 | appends the stamped slot exactly if no boundary is pending, there is room and the source count can go on; counts a discard only when full |
| Ring.Ring.ProducerPush | src/ring.rs:440-457 | accepts the longest chronological prefix, stamped consecutively; in-range samples go out as they are, others as the bound they lie beyond; a rejected tail is counted |
| Ring.Ring.ProducerGap | src/ring.rs:545-560 | accepts the longest prefix of slots, all missing, stamped likewise |
| Ring.Ring.ProducerPushTagged | src/ring.rs:461-510 | publishes the clipped spans and then the PCM prefix that fits and counts the rest, or answers without effect, as `Ring.TaggingIsExact` decides |
| Ring.TaggingIsExact | src/ring.rs:469-489 | of a tagged block: refused exactly if it is too long, ends past the last position, has a bad span or too many, or is of the running generation and does not continue it; otherwise it waits for credit or room, or as much is taken as fits |
| Ring.TakenIsAccepted | src/ring.rs:483-488 | a block taken continues the stamps of its generation, which is what `Producer.StampsNeverFence` assumes of every act |
| Ring.Ring.ProducerMute | src/ring.rs:514-531 | only positions accepted in the current generation; publishes the credited prefix of the spans |
| Ring.Ring.SyncProducerEpoch | src/ring.rs:534-542 | forgets the stamp exactly if a reset has happened since |
| Ring.Ring.ProducerFinish | src/ring.rs:565-576 | the next token, pending; refused while one is pending or tokens have run out |
| Ring.Ring.FinishStatus | src/ring.rs:579-590 | the status of the latest token, an error for any other |
| Ring.Ring.FinishPending | src/ring.rs:593-596 | whether publication is gated |
| Ring.Ring.ConsumerTakeSourceSample | src/ring.rs:599-612 | takes the oldest slot, nothing if empty |
| Ring.Ring.Available | src/ring.rs:833-837 | the number of readable slots |
| EngineSource.StreamConserved | src/ring.rs:1004-1006 | fed, waiting and unread are together the published slots, and taken is accepted plus waiting |
| EngineSource.FillKeeps | src/ring.rs:966-1007 | taking any published slots keeps the account, the exact gap spans and the base; with consecutive stamps none is fenced |
| EngineSource.MarkAdds | src/ring.rs:985-1003 | extending or starting a span marks exactly the slot taken |
| EngineSource.FenceIsExact | src/ring.rs:973-984 | a slot is fenced exactly if it is stamped, tagging has begun and its stamp is not the one after the last slot's |
| EngineSource.SteeredByBacklog | src/ring.rs:1017-1024 | the controller is shown the whole backlog, every slot published and not yet accepted and what the converter still holds |
| EngineSource.PruneIsExact | src/ring.rs:1072-1074 | pruning removes exactly the spans behind the position |
| EngineSource.RefillKeeps | src/ring.rs:947-1128 | short of a refused slot a refill with any replies keeps the whole account of the source |
| EngineTime.SlowMarkIsExact | src/ring.rs:1061-1077 | one output at a time: missing exactly if the slot under its position was published as a gap |
| EngineTime.PositionsRise | src/ring.rs:894-898 | the affine positions of a batch start at its start, strictly rise and stay below its end |
| EngineTime.HealthyRefill | src/ring.rs:1101-1127 | a healthy refill never fails, and what it leaves to play next lies where the converter stood |
| EngineTime.LoopSettles | src/ring.rs:677-686 | within the retry limit a healthy finite tail always ends with output |
| EngineTime.LoopSettlesWithin | src/ring.rs:362 | capacity and history alone bound the retries that can starve |
| EngineTime.PlayingAdvances | src/ring.rs:708-714 | playing an output moves the next position strictly on |
| EnginePlay.RunConservesStream | src/ring.rs:599-612 | over every run with any replies and interleavings, until a refused slot, nothing published is lost, repeated or reordered |
| EnginePlay.DrainedMeansPlayed | src/ring.rs:773-800 | drained means the reset succeeded, the lookahead was released, and every published slot was taken and accepted, so the FIFO is empty though its cursor was not moved |
| EnginePlay.PastEndMeansAllAccepted | src/ring.rs:690-695 | an output at or past the captured end exists only once every slot was accepted |
| EnginePlay.PadComesLast | src/ring.rs:1008-1013 | zero extension begins only when the whole burst has been taken |
| EnginePlay.RenderKept | src/ring.rs:630-750 | one call with any replies keeps the account, or completes a burst, drained only if all of it was accepted |
| EnginePlay.ConvertCases | src/ring.rs:1060-1093 | a conversion fails on a reply before anything is accepted, or books exactly what the adapter used and made |
| EngineRoom.GapListNeverFull | src/ring.rs:316-323 | over every run from creation, with retention assumed of every reply and nothing else, no refill of any call meets a full gap list; only the stamp fence refuses, and then no call converts until a reset |
| EngineEnding.BoundaryCutsExactly | src/ring.rs:690-696 | with any replies, one call plays its converted output exactly if it lies before the boundary; all cached behind the first that does not lie past it too |
| EngineEnding.LookaheadIsPlayedOut | src/ring.rs:754-769 | an ending plays exactly the retained samples, oldest first, with their own flags, silence exactly where an interval received by that call meets the sample's own position, and then completes |
| EngineEnding.FailedResetIsSilent | src/ring.rs:728-730 | from any failed reset, explicit or of a completing burst, through any calls and further failing resets, every sample is silence until one succeeds |
| EngineEnding.FaultHoldsBoundary | src/ring.rs:653-656 | under a mute fault every call reports failure and plays silence, and a captured boundary stays as it is, unacknowledged, until a reset |
| EngineLive.NoFalseAdapterError | src/ring.rs:674-689 | over every healthy run no call fails but on a mute fault, and every boundary ends drained |
| EngineLive.LiveStep | src/ring.rs:630-750 | a healthy call keeps the run healthy, moves no position back and brings a captured burst closer to its end |
| EngineLive.BurstResolves | src/ring.rs:667-696 | a captured burst is resolved within as many calls as source billionths and lookahead samples are left |
| EngineMarks.EveryOutputIsMarkedExactly | src/ring.rs:1060-1087 | after every healthy run a call converts its output as missing exactly if the slot under its position was published as a gap, whatever is published later; every other output of its batch has its own slot's mark too |
| EngineMarks.FastPathRefinesSlow | src/ring.rs:1078-1080 | after every healthy run each output of a batch has the mark a later conversion of it alone would give it |
| EngineBurst.BurstPlaysExactlyItsOwn | src/ring.rs:690-696 | over all calls from reset to outcome of a healthy run the outputs played are, in order and once each, exactly those made for positions before the end |
| EngineBurst.BurstResolvesAtPace | src/ring.rs:667-696 | a captured burst is resolved within as many calls as outputs of a given least advance fit before its end, and lookahead samples |
| EngineBurst.HealthyKeepsPace | src/ring.rs:894-898 | every healthy batch advances a billionth per output at least, so that bound always applies |
| EngineStall.PrimingConsumesNothing | src/ring.rs:661-666 | until the reserve is there, however many calls are made, nothing is taken, converted or concealed |
| EngineStall.PlayoutStartsExactly | src/ring.rs:653-673 | a call without a boundary converts exactly if it is not faulted, it is awake or something is readable, and it is primed, the reserve is readable or the last reset failed; it then is primed |
| EngineStall.BoundaryStartsPlayout | src/ring.rs:661-673 | with a boundary no reserve is waited for: only a mute fault holds the call, which otherwise converts, or ends the burst if that is empty or ending already |
| EngineStall.PrimedUntilCompleted | src/ring.rs:658-666 | a call never unprimes the player unless it completes a burst, which leaves it quiet and unprimed |
| EngineStall.NoRepriming | src/ring.rs:658-666 | so running dry, however long, never makes it wait for the reserve again |
| EngineStall.CompletedStaysQuiet | src/ring.rs:653-656 | after an outcome every call is silent and touches nothing until something is published or finished |
| EngineStall.QuietSurvivesReset | src/ring.rs:916-943 | a reset neither wakes a quiet player nor quiets another |
| EngineStall.CompletionReprimes | src/ring.rs:661-666 | the burst after an outcome waits for the reserve anew |
| EngineStall.ResetReprimes | src/ring.rs:916-943 | so does a player reset from outside, and nothing of the old burst is left in it |
| EngineStall.StuckRefill | src/ring.rs:955-961 | a refill without progress grows the workspace by one quantum up to capacity, and is an error exactly when that is full |
| EngineStall.StuckConverterIsReported | src/ring.rs:1123-1127 | a converter that stops making progress is reported as failed once one workspace of source has piled up |
| EngineFaults.RefillFailsExactly | src/ring.rs:947-1128 | whatever the adapter answers, a refill fails exactly if the last reset failed, a slot was refused, or a reply is an error, negative, more than was offered, runs the clock back or makes no progress with the room used up; only the fence and the clock raise a mute fault |
| EngineFaults.GapListKeepsItsRoom | src/ring.rs:994-998 | over every run, whatever the adapter does, the gap list stays within the room reserved for it |
| EngineFaults.LossIsConcealed | src/ring.rs:708-736 | a muted output is real silence, never a loss; a missing one or none is a loss; any other is the sample, in range |
| EngineFaults.FailureIsReported | src/ring.rs:653-750 | the failure flag is up exactly under a mute fault, with an adapter-error outcome, quiet behind a failed reset, or after a failed refill; fault and outcome are silent |
| Engine.Canonical | src/ring.rs:1189-1196 | in-range samples are unchanged, others become the bound they lie beyond |
| EngineMute.SupportIsTight | src/ring.rs:903-913 | a support is floor and ceiling of the position: one slot or two neighbours |
| EngineMute.RenderHears | src/ring.rs:719-749 | a played sample is silence exactly where its own support meets a recorded interval, otherwise what the concealer made |
| EngineMute.MutingIsExact | src/ring.rs:719-749 | the same after every healthy run of publications, calls, mutes, endings and resets |
| EngineStamps.SupportIsStamp | src/ring.rs:903-913 | the support of an output is the stamp of the slot under its position, and the next one where it lies between two |
| EngineStamps.CoveredSlotIsSilent | src/ring.rs:719-736 | after every healthy run an output is real silence exactly if an interval received by then holds the stamp of its slot, or of the next where it lies between |
| EngineMute.AbsorbingIsHistory | src/ring.rs:645-652 | draining the mailbox is recording its intervals one by one |
| EngineLookahead.TagStep | src/ring.rs:737-744 | a call that plays moves the concealer's flags and the position ring together |
| EngineLookahead.TagsEmergeInOrder | src/ring.rs:737-744 | the separately indexed rings never drift: each sample comes out with the position it went in with, through playing and ending |
| PassThrough.PassIsHealthy | src/samplerate_adapter.rs:187-218 | the assumptions made of an adapter can be met by one that makes output |
| PassThrough.WhatIsPublishedIsHeard | src/ring.rs:630-750 | end to end over every run: the outputs played are the published slots, once each, in order, in-range PCM unchanged, gaps as missing silence; a burst completes only when all was heard |
| PassThrough.NextSlotIsHeard | src/ring.rs:658-750 | a call that may play and finds the next slot published plays it |
| PassThrough.StreamIsHeard | src/ring.rs:658-750 | so once playout has begun, calls that each find a slot play one each: the stream is never stalled |
| PassDelayed.WhatIsPublishedIsHeardDelayed | src/ring.rs:630-769 | the same with the concealer in between, while no slot is missing and no call starves: the 3.75 ms of silence of the lookahead, then every slot in order, in-range PCM unchanged; a burst completes only when the last was heard |
| Conversion.Conversion.MakeInputSpace | src/ring.rs:1131-1144 | compaction makes the room asked for and changes nothing pending |
| Conversion.Conversion.TakeSlot | src/ring.rs:970-1006 | one slot is taken with its gap mark and base, or refused by the fence or the full list |
| Conversion.Conversion.FillInput | src/ring.rs:966-1007 | the loop fills the workspace as specified and removes exactly those slots from the FIFO |
| Conversion.Conversion.PadInput | src/ring.rs:1008-1013 | an exhausted finite source is extended by zeros that are not missing |
| Conversion.Conversion.SteerRatio | src/ring.rs:1020-1058 | occupancy and ratio follow the specified controller; which way it steers, the rows of `SettingsDrift` say |
| Conversion.Conversion.PruneGaps | src/ring.rs:1072-1074 | the popping loop prunes |
| Conversion.Conversion.MarkNext | src/ring.rs:1060-1077 | the next output is marked by the slot it lies on |
| Conversion.Conversion.ConcludeConversion | src/ring.rs:1094-1127 | books frames used, the batch and its span, or the stall |
| Conversion.Conversion.RefillOutput | src/ring.rs:947-1128 | the whole refill on arrays and cursors is the specified refill, and removes exactly the slots it counted |
| Conversion.Conversion.CacheSourcePosition | src/ring.rs:894-898 | the position of the next cached output |
| Conversion.Conversion.CacheSupport | src/ring.rs:903-913 | its support on the producer's timeline, nothing before the first stamp or outside it |
| Conversion.Conversion.TakeCached | src/ring.rs:708-714 | plays the oldest cached sample |
| Conversion.Conversion.Reset | src/ring.rs:916-943 | empties source side, cache and controller, and blocks conversion until an adapter reset succeeds |
| Lookahead.Lookahead.Exchange | src/ring.rs:737-744 | the new position goes in where the oldest comes out; without a ring it passes through |
| Lookahead.Lookahead.DrainOldest | src/ring.rs:759-761 | the oldest sample comes out with its own position |
| Consumer.Consumer.AbsorbMutes | src/ring.rs:645-652 | the bounded loop empties the mailbox into the history; one refusal is a fault |
| Consumer.Consumer.CaptureBoundary | src/ring.rs:634-643 | adopts a pending boundary once, ending at taken plus readable |
| Consumer.Consumer.Gatekeep | src/ring.rs:653-673 | faults, quiet and priming decide as specified, which `EngineStall.PlayoutStartsExactly` states, and nothing of the ring changes |
| Consumer.Consumer.RefillRepeatedly | src/ring.rs:677-682 | the bounded retry loop is the specified loop and leaves the FIFO that loop leaves |
| Consumer.Consumer.PlayOutput | src/ring.rs:703-749 | mute, conceal, delay, mute again and retire, in that order; what is heard of it, `EngineFaults.LossIsConcealed` and `EngineMute.RenderHears` state |
| Consumer.Consumer.DrainFinite | src/ring.rs:754-769 | plays one retained sample or completes |
| Consumer.Consumer.CompleteFinite | src/ring.rs:773-800 | resets, discards the rest only after a failure, bumps the epoch and stores the outcome of its token |
| Consumer.Consumer.RenderSample | src/ring.rs:630-750 | the whole call on the consumer's and the ring's state is the specified call, with every effect on the ring |
| Consumer.Consumer.Reset | src/ring.rs:916-944 | discards every ended-burst cache whatever the adapter answers |
| Consumer.Consumer.ConsumerReset | src/ring.rs:817-830 | empties FIFO and mailbox, resets, bumps the epoch and cancels a pending boundary |
| Agreement.CallAgrees | src/ring.rs:630-750 | short of a refused slot a call of the class is a call of the world of the run theorems, and its FIFO stays the unread rest of the slots published |
| Agreement.RunAgrees | src/ring.rs:231-240 | every run of producer calls, rendered samples and resets, refused slots included, is a run of that world with the same player; a held boundary is the one still pending |
| Agreement.EndpointsConserveStream | src/ring.rs:599-612 | so from creation, until a refused slot, what the class fed, holds and left in its FIFO is exactly what was published |
| Agreement.Pushing | src/ring.rs:440-457 | a push appends just the accepted slots and leaves word and epoch, nothing at all while a boundary is pending |
| Agreement.Gapping | src/ring.rs:545-560 | likewise a gap |
| Agreement.Tagging | src/ring.rs:461-510 | likewise a tagged push |
| Agreement.Muting | src/ring.rs:514-531 | announcing mutes publishes no slot and leaves word and epoch |
| Agreement.Finishing | src/ring.rs:565-576 | a finish stores the next token pending, or nothing |
| HandoffSteps.CallIsHandoffRun | src/ring.rs:630-800 | a call in which no slot was refused is a legal run of single loads and stores, so its drained completion begins only with every slot up to the captured end taken |
| HandoffSteps.RunIsHandoffRun | src/ring.rs:565-830 | so is every run of publications, finishes, calls and resets |
| HandoffSteps.EndpointsFollowProtocol | src/ring.rs:565-830 | from creation the finish word is the last of alternating stores and a held boundary is pending for its token |
| HandoffSteps.OutcomeIsReported | src/ring.rs:579-590 | of a waiting burst the token reports pending until a call acknowledges it, then what that call acknowledged, or cancelled after a reset; ended other than drained it leaves no slot and no mute record behind |
| EndpointRuns.EndBeginsTimeline | src/ring.rs:534-542 | after an outcome or a reset the producer holds no stamp, so a block of any generation and start may follow |
| EndpointRuns.EndpointsLoseNothing | src/ring.rs:461-510 | over every run of the endpoints from creation, with one generation per reset and the retention bound as the only premises, the published slots are consecutively stamped, none is ever refused, and fed, held and unread are what was published |
| Agreement.SuppliesSee | src/ring.rs:677-682 | each retry is offered all that the ones before it left |
| Agreement.RefillSeesRest | src/ring.rs:1017-1024 | a refill is offered the unread rest and steers by what is still unread once its workspace is filled |
| Agreement.CallStartsExactly | src/ring.rs:653-666 | of the ring itself: without a boundary a call converts exactly if unfaulted, something is readable if it was quiet, and the reserve is unless it is primed or the last reset failed |
| Agreement.CallHearsRecords | src/ring.rs:645-652 | every record waiting in the mailbox is in force before anything of the call is played, and nothing else is added |

## Left out

- `src/lib.rs`: descriptor, pointer and size checks and handle allocation are thin wrappers.
- The dynamic adapter: its functions are not part of this model; their replies are parameters, and nothing is claimed about FIR quality or actual delays.
- Allocation failures and the rest of `Ring::create`: what was really reserved enters as the room of `Engine.Config`, at least what was asked for.
- Weak memory: interleavings are sequentially consistent; what an acquire sees is taken from the release it pairs with.
- `f32` and `f64`: samples, ratios and gains are reals, so rounding, NaN and the mapping of non-finite samples to zero are absent; a sample's real flag is a boolean.
- `u64` occupancy arithmetic that saturates, and `i128`/`u128` positions, are unbounded; stamps, discards, tokens, supports and the loss counter keep their limits.
- Diagnostics: missing and shortfall counters, the shortfall average, the error counter, the published occupancy and ppm, and `observe`.
- `consumer_render` repeats the one-sample call over a block; only the one-sample call is modelled.
- Plc.Plc.Score: the root of the energy is never taken; the score is its square with the sign kept, which `PlcLaws.ScoreOrders` shows orders lags the same.
- Plc.Plc.DetectPitch: the pitch scores best among the lags searched; that this is the pitch of the material is claimed of a window that exactly repeats only (`PlcPitch.PeriodScoresHighest`).
- PlcWave.LossContinuesThePeriod: speaks of exactly periodic histories; of others `PlcSeam` and `PlcFade` state the joins and cross-fades, not how they sound.
- PassDelayed.WhatIsPublishedIsHeardDelayed: once a slot is missing or a call starves, what is heard is the concealer's; its laws are in `PlcLaws`, `PlcSeam`, `PlcFade`, `PlcWave` and `PlcRecovery`, not end to end.
- HandoffSteps.RunIsHandoffRun: like the account of the source it ends at a refused slot, and it orders whole calls; their interleavings are what `Handoff` itself is about.
- Mute.HistoryRefinesNaive: no bound on live intervals is claimed, since lookahead adds source frames to the prepared room; a full list is the fail-closed mute fault.
- EnginePlay.RunConservesStream: ends at a refused slot, which the source loses count of until the next reset; `EndpointRuns.EndpointsLoseNothing` says when there is none.
- Consumer.Consumer.Reset: a reset ring is not claimed equal to a new one, because the quiet flag deliberately survives.
- Ring.Ring.ProducerPush: the class runs one call at a time, so the consumer takes nothing meanwhile; concurrent steps are in `Spsc` and `Handoff`.
- `ConsumerState` is four objects here, `Consumer`, `Conversion`, `Lookahead` and `History`, with the fields of the source divided among them; the gap and interval deques are sequence fields.
