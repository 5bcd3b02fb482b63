# Coordinator, data assignment and event timeline: a verified model

This project models the core of a decentralized training system in Dafny and proves what its parts
guarantee, for every input and over every run.

- **The coordinator** (`CoordinatorSpec`, `CoordinatorInvariants`, `CoordinatorSteps`, `CoordinatorCases`,
  `CoordinatorHealth`, `CoordinatorEffects`, `ClientOrder`, `CoordinatorRuns`, `CoordinatorTheorems`,
  `CoordinatorProgress`, `CoordinatorExamples`, `CoordinatorObject`). A run waits for members, warms up, goes through rounds of training
  and witnessing, cools down and starts the next epoch. Every operation is a total function on the state with an
  explicit outcome for an abort. The class `Coordinator` holds the same fields with an array for the ring of four
  rounds, and each of its methods is proved to compute its function. A run is any sequence of operations from an
  initial state. A history of starting lists, departures, convictions, rounds and trainers is kept beside the
  state for the statements; no operation reads it.
- **Who does what** (`SwapOrNot`, `ShuffleFreedom`, `CommitteeDraw`, `CommitteeFreedom`, `DeterministicShuffle`,
  `DataSelection`, `DataRuns`, `AuditSelection`, `AuditFreedom`, `AuditRuns`, `Consensus`, `BloomFilters`,
  `BatchRamp`). Seats are drawn by a shuffle that is proved to be a bijection, so committee sizes are exact, and to
  be any bijection its rounds can make, for some hash. The data of a round is cut into shares that tile it.
  Together with the runs this gives: every data index a run reaches is assigned to exactly one trainer in exactly
  one round, unless everybody verifies. Clients take up what they are assigned except in the rounds, two at most,
  that close an epoch whose time has run out. Audits are compared with what was assigned.
- **The event timeline** (`StableSort`, `Timeline`). Entries stay the stable sort of all that arrived, on the
  append path and on the merge path, and a snapshot from a checkpoint equals a replay from the start.
- **Data structures** (`MerkleTrees`, `IntervalTrees`, `FixedVecs`), each against a simple meaning: levels of
  hashes, sets of points, sequences.
- **The barrier** (`Barrier`) as steps of interleaved threads under one mutex and one condition variable.
- **Sequence packing** (`Packing`, `PackedDatasets`): the any-fit rule, its bound, and the padded packs.

`Wrappers`, `Hashing`, `Sequences` and `Behaviours` hold the result types, the byte and digest types, facts about
sequences, and induction over the states of a run.

Hash functions are parameters: every statement holds for every SHA-256 and FNV function of the right type.
Time, random seeds, random choices and pending clients are parameters or arbitrary choices. Timestamps and
counters are unbounded integers. An abort of the original, such as a failed assertion or an index past the
end, is the outcome `Panic`.

Where the original does not keep a property it might be expected to keep, the model follows the original. The
exact condition is proved, and a concrete case is given: the abort of a warmup witness, exact positions in
historical lists, a health check answered for somebody else's seat, the round before the previous at height 1,
a member who is pending twice, data left over when everybody verifies, audits when tie-breaker seats are
reserved or no round has started, the quorum of four nodes, the proof of a single leaf, a refused call of a full
barrier generation, pushes that go back in time and a merge after one, and samples behind a group in which none
fits.

## Model

| member | source | states |
|---|---|---|
| `CoordinatorTheorems.ReachableStepsDoNotPanic` | shared/coordinator/src/coordinator.rs:439-710 | in every reachable state no operation aborts, except a warmup witness, and that one exactly when its duplicate scan meets an index past the client list before it meets the sender; that needs somebody to have left the epoch |
| `CoordinatorExamples.WarmupWitnessAbortExample` | shared/coordinator/src/coordinator.rs:492-507 | a reachable state and a warmup witness that aborts: a member reports from the last place and withdraws, the list is compacted, and the next report reads the stale place |
| `CoordinatorTheorems.ReachableBounds` | shared/coordinator/src/coordinator.rs:952-1143 | every reachable state: the step is at most the total and below it while waiting, warming up or in a round; a pending pause only in active states; the ring head is the height modulo four; warmup and rounds hold at least the minimum of clients; in a round the recorded client count is the number of clients; clients and exits together are the epoch's roster, have no repeats and number at most 256; exits are ordered by height |
| `CoordinatorTheorems.RunsTileTheData` | shared/coordinator/src/coordinator.rs:1047-1186 | over every run, through any epochs, failed warmups and pauses, the rounds start at index 0 and each starts where the previous ended; the current round's data index is the one its step number determines |
| `CoordinatorTheorems.HistoricalClientsArePermuted` | shared/coordinator/src/coordinator.rs:873-892 | for every round still in the ring the historical client list is that round's starting list in some order |
| `CoordinatorTheorems.HistoricalPositionsExactIff` | shared/coordinator/src/coordinator.rs:873-892 | over every run and for every round still in the ring, however many compactions ago: the historical list is the starting list itself exactly when nobody left in an earlier compaction than somebody in front of them |
| `CoordinatorExamples.HistoricalPositionsExample` | shared/coordinator/src/coordinator.rs:873-892 | a run of three members in which the last leaves at the end of the round and the other two at the end of the epoch: the historical list of that round has the last in front |
| `CoordinatorTheorems.PlaceIsOldPlaceIff` | shared/coordinator/src/coordinator.rs:873-892 | over every run, a client is at the place it had when a stored round started exactly when everybody up to that place is still there |
| `CoordinatorTheorems.IndictedForOwnSeatIff` | shared/coordinator/src/coordinator.rs:712-743 | over every run, an upheld check names the client that held the seat in the previous round exactly when everybody up to that seat is still there; otherwise that seat was somebody else's |
| `CoordinatorTheorems.OwnSeatConvictsIff` | shared/coordinator/src/coordinator.rs:712-743 | over every run, a trainer of the previous round is convicted by the proof of the seat it held exactly when too few witnesses confirm it and everybody up to that seat is still there |
| `CoordinatorExamples.WrongSeatExample` | shared/coordinator/src/coordinator.rs:572-743 | a run in which a member who verified is named with the proof of the place it has moved to, the check is upheld for the trainer seat of its old neighbour, and the member is dropped |
| `ClientOrder.ArrangedExactIff` | shared/coordinator/src/coordinator.rs:873-892 | survivors followed by leavers in the order they left are the original list exactly when nobody left before somebody in front of them |
| `ClientOrder.PlaceIsKeptIff` | shared/coordinator/src/coordinator.rs:1209-1224 | after any number of compactions a survivor is at its old place exactly when everybody up to there survives |
| `CoordinatorTheorems.HistoricalFromIs` | shared/coordinator/src/coordinator.rs:873-892 | the historical lookup reads the live clients followed by the most recent exits |
| `CoordinatorTheorems.EpochEndSettlesConvictions` | shared/coordinator/src/coordinator.rs:1105-1143 | at every tick that ends an epoch nobody dropped or ejected is among the clients, and everyone ejected since the epoch entered warmup is in the exit list still marked ejected |
| `CoordinatorTheorems.RoundContinuesIff` | shared/coordinator/src/coordinator.rs:1052-1102 | a round whose time is over is followed by another exactly when enough healthy clients stay, enough witnesses reported, steps are left in the run and the epoch, and no pause is pending; enough is any report when the number of witnesses is open, all of one or two, and two thirds, rounded down, of three or more; otherwise the epoch cools down |
| `CoordinatorTheorems.PendingPauseStep` | shared/coordinator/src/coordinator.rs:689-710 | with a pause pending every operation keeps it pending in an active state without starting a round, or pauses the run |
| `CoordinatorTheorems.PauseIsHonoured` | shared/coordinator/src/coordinator.rs:689-710 | in every run, after a pause request no round starts before the run pauses and the first inactive state is Paused |
| `CoordinatorTheorems.DeadlineNoticed` | shared/coordinator/src/coordinator.rs:1047-1103 | only leaving a round notices the deadline, and it fixes the last step |
| `CoordinatorTheorems.BoundedRun` | shared/coordinator/src/coordinator.rs:1047-1103 | once fixed, the last step is not passed as long as the run stays active |
| `CoordinatorTheorems.AtMostTwoMoreRounds` | shared/coordinator/src/coordinator.rs:1047-1103 | in every run at most two more rounds start in the epoch after the deadline is noticed |
| `CoordinatorProgress.OverdueTickLeaves` | shared/coordinator/src/coordinator.rs:1019-1143 | a tick past the timeout always leaves warmup, training, witnessing and cooldown |
| `CoordinatorProgress.TickLeavesIff` | shared/coordinator/src/coordinator.rs:1037-1153 | in training, witnessing and cooldown a tick leaves the state exactly when it comes at another instant and the configured time has passed since the state was entered; otherwise it changes nothing |
| `CoordinatorProgress.StatesLast` | shared/coordinator/src/coordinator.rs:439-710 | in every run training lasts its configured time unless every elected witness has reported before, and witnessing and cooldown always last theirs, measured from the operation that entered the state |
| `CoordinatorProgress.PhasesGoDown` | shared/coordinator/src/coordinator.rs:439-710 | no operation adds to the phases an epoch can still go through, and a tick past the timeout uses one up |
| `CoordinatorProgress.EpochsEnd` | shared/coordinator/src/coordinator.rs:439-710 | in every run, whatever happens between them, an epoch lasts through fewer ticks past the timeout than it had phases left, which is at most twice the steps of the run |
| `CoordinatorRuns.StepKeepsTracedInv` | shared/coordinator/src/coordinator.rs:439-710 | every operation keeps the invariant and its agreement with the history: roster, starting lists, who left in which compaction, convictions, the log of rounds and the trainers of each |
| `CoordinatorRuns.RunKeepsTracedInv` | shared/coordinator/src/coordinator.rs:439-710 | every state of every run from an initial state satisfies the invariant |
| `CoordinatorRuns.RoundDataIndex` | shared/coordinator/src/coordinator.rs:1160-1186 | in a round the data index is the sum of the batch sizes of all earlier steps |
| `CoordinatorEffects.StepKeepsInv` | shared/coordinator/src/coordinator.rs:439-710 | every operation keeps the invariant, and aborts exactly in the one warmup-witness case |
| `CoordinatorEffects.StepHasEffect` | shared/coordinator/src/coordinator.rs:439-710 | every operation enters warmup afresh, or moves identities only from the clients to the end of the exits, keeps convictions, and starts at most one round |
| `CoordinatorSteps.TickWaitingCases` | shared/coordinator/src/coordinator.rs:952-1017 | a waiting tick opens an epoch exactly when enough clients are pending, counted modulo 2^16, and the waiting time is over; it then holds exactly the admitted clients and an empty ring, and otherwise nothing changes |
| `CoordinatorSteps.TickWaitingKeepsInvIff` | shared/coordinator/src/coordinator.rs:952-1017 | a waiting tick does not abort, and keeps the invariant exactly when the epoch it opens admits nobody twice |
| `CoordinatorExamples.AdmittedTwiceExample` | shared/coordinator/src/coordinator.rs:952-1017 | a member who is pending twice is admitted twice |
| `CoordinatorSteps.TickKeepsInvIff` | shared/coordinator/src/coordinator.rs:439-457 | no tick aborts, and every tick keeps the invariant exactly when it admits nobody twice |
| `CoordinatorSteps.TickWarmupKeepsInv` | shared/coordinator/src/coordinator.rs:1019-1035 | a warmup tick keeps the invariant; at the timeout it always starts the first round, so the failure branch there cannot be taken |
| `CoordinatorSteps.TickRoundTrainKeepsInv` | shared/coordinator/src/coordinator.rs:1037-1045 | a training tick keeps the invariant |
| `CoordinatorSteps.TickRoundWitnessKeepsInv` | shared/coordinator/src/coordinator.rs:1047-1103 | a witnessing tick keeps the invariant, whether the round was empty, the epoch must cool down, or the next round starts |
| `CoordinatorSteps.TickCooldownKeepsInv` | shared/coordinator/src/coordinator.rs:1105-1143 | a cooldown tick keeps the invariant and leaves the data index where the next epoch starts |
| `CoordinatorSteps.OpenNextRound` | shared/coordinator/src/coordinator.rs:1160-1186 | starting a round moves the ring head on by one and keeps what is known of the three rounds before it |
| `CoordinatorCases.WarmupTickCases` | shared/coordinator/src/coordinator.rs:1019-1035 | the whole outcome of a warmup tick: past the time the first round starts in slot 0 with the seed given and the data of the epoch; before it the leavers go, and the epoch is given up exactly when too few stay |
| `CoordinatorCases.TrainTickCases` | shared/coordinator/src/coordinator.rs:1037-1045 | the whole outcome of a training tick, by the clock alone |
| `CoordinatorCases.WitnessTickCases` | shared/coordinator/src/coordinator.rs:1047-1103 | the whole outcome of a witnessing tick: by the clock, the counts of clients, reports and steps, and a wanted pause; the next round takes the next slot, height and data and the seed given; a cooldown clears the reports, and withdraws everybody when there were none; the last step is fixed when the time of the epoch is over |
| `CoordinatorCases.CooldownTickCases` | shared/coordinator/src/coordinator.rs:1105-1143 | the whole outcome of a cooldown tick: the epoch is counted, the next one starts where its data ends, and the run pauses, waits or is finished |
| `CoordinatorCases.HaltedTick` | shared/coordinator/src/coordinator.rs:439-457 | a run that stands still refuses to tick |
| `CoordinatorCases.WarmupReportCases` | shared/coordinator/src/coordinator.rs:459-520 | while every stored report names a client, a warmup report is taken exactly when the sender is at its index, has no stored report and fewer than 32 are stored; the report that makes the number wanted starts the first round, every other one is appended; refusals change nothing and say why |
| `CoordinatorCases.StaleReportCases` | shared/coordinator/src/coordinator.rs:492-513 | once a stored report names nobody no further report is taken: it aborts, or is refused as a duplicate or as out of place |
| `CoordinatorCases.LateReportCases` | shared/coordinator/src/coordinator.rs:459-475 | outside warmup a report has no effect; it is accepted in training and refused otherwise |
| `CoordinatorCases.ReportReplies` | shared/coordinator/src/coordinator.rs:522-570 | a round report is refused as a duplicate when its proof is good and as invalid otherwise |
| `CoordinatorCases.OutOfPlaceReports` | shared/coordinator/src/coordinator.rs:522-545 | reports outside a round, or without a valid selection, change nothing and say why |
| `CoordinatorCases.LeavingCases` | shared/coordinator/src/coordinator.rs:651-687 | a withdrawal succeeds exactly for a healthy client and an ejection exactly for one that has neither withdrawn nor been ejected; only that client is marked |
| `CoordinatorCases.PausingCases` | shared/coordinator/src/coordinator.rs:689-710 | the whole outcome of pause and resume in every state; a resumed run is finished exactly when no step is left |
| `CoordinatorCases.QuorumIsTwoThirds` | shared/coordinator/src/coordinator.rs:745-757 | the quorum is all of one or two nodes and two thirds, rounded down, of three or more; it is undefined for none |
| `CoordinatorSteps.WitnessCases` | shared/coordinator/src/coordinator.rs:522-570 | a round witness succeeds exactly when it comes from an elected client at its own place that has not reported; otherwise nothing changes; it never aborts and never finds the list full |
| `CoordinatorSteps.TrainingEndsWhenAllWitnessed` | shared/coordinator/src/coordinator.rs:560-569 | training ends early exactly when every elected witness has reported |
| `CoordinatorSteps.ElectedIsTarget` | shared/coordinator/src/coordinator.rs:532-536 | the number of elected witnesses is the number the round waits for, at most 32 |
| `CoordinatorSteps.StoredAgainstElected` | shared/coordinator/src/coordinator.rs:545-564 | the stored witnesses are distinct elected clients with valid indices, so their number is the number of indices |
| `CoordinatorSteps.WarmupWitnessPanicsIff` | shared/coordinator/src/coordinator.rs:492-507 | exactly when the duplicate scan of a warmup witness reads past the client list |
| `CoordinatorSteps.WarmupWitnessKeepsInv` | shared/coordinator/src/coordinator.rs:459-520 | a warmup witness that does not abort keeps the invariant, also when it starts the first round |
| `CoordinatorSteps.EjectKeepsInv` | shared/coordinator/src/coordinator.rs:672-687 | an ejection keeps the invariant |
| `CoordinatorSteps.WithdrawKeepsInv` | shared/coordinator/src/coordinator.rs:651-661 | a withdrawal keeps the invariant |
| `CoordinatorSteps.PauseKeepsInv` | shared/coordinator/src/coordinator.rs:689-702 | a pause request keeps the invariant |
| `CoordinatorSteps.ResumeKeepsInv` | shared/coordinator/src/coordinator.rs:704-710 | resuming keeps the invariant |
| `CoordinatorInvariants.MoveKeepsIds` | shared/coordinator/src/coordinator.rs:1209-1224 | the compaction moves identities and loses none |
| `CoordinatorInvariants.MoveSplits` | shared/coordinator/src/coordinator.rs:1209-1224 | those who stay and those who leave each keep their order |
| `CoordinatorInvariants.MoveFits` | shared/coordinator/src/coordinator.rs:1209-1224 | the exit list never overflows: the compaction cannot abort |
| `CoordinatorInvariants.MoveKeepsOrder` | shared/coordinator/src/coordinator.rs:1209-1224 | exits stay ordered by the height at which they left |
| `CoordinatorInvariants.KeptAreHealthy` | shared/coordinator/src/coordinator.rs:1209-1224 | exactly the healthy clients are kept |
| `CoordinatorInvariants.LeavingAreUnhealthy` | shared/coordinator/src/coordinator.rs:1209-1224 | those that leave keep their state and are stamped with the height |
| `CoordinatorHealth.PreviousRoundIsPrevious` | shared/coordinator/src/coordinator.rs:826-839 | the previous round is the one of height h - 1, had witnesses, and ended where the current one starts; there is none at height 0 |
| `CoordinatorHealth.PreviousPreviousRoundIff` | shared/coordinator/src/coordinator.rs:841-853 | the round before the previous is the one of height h - 2, or none, exactly when the height is not 1; at height 1 an unused slot is returned |
| `CoordinatorExamples.PreviousPreviousExample` | shared/coordinator/src/coordinator.rs:841-853 | a run that reaches height 1, where the unused slot is returned |
| `CoordinatorHealth.ScoreIsCount` | shared/coordinator/src/coordinator.rs:771-782 | a trainer's score is the number of witnesses whose participant filter holds it |
| `CoordinatorHealth.AddedClientsScore` | shared/coordinator/src/coordinator.rs:759-782 | a trainer added to the filters of some witnesses scores at least their number |
| `CoordinatorHealth.CheckMeaning` | shared/coordinator/src/coordinator.rs:712-743 | a check finds a client unhealthy exactly when it names the client at the place of the proof in the current list, the proof is the one drawn for that place as a trainer seat of the previous round, and fewer than quorum witnesses confirm the client; it never aborts |
| `CoordinatorHealth.CheckReplies` | shared/coordinator/src/coordinator.rs:712-743 | the answer to every check: refused unless the proof is the one drawn for the place of the client, healthy for who did not train, and for a trainer whether a quorum confirms it |
| `CoordinatorHealth.FirstRefusalDecides` | shared/coordinator/src/coordinator.rs:584-593 | the first check that is not an indictment decides the answer to all of them |
| `CoordinatorHealth.EarlyChecks` | shared/coordinator/src/coordinator.rs:572-588 | a run that stands still, or whose pipeline is not full, refuses all checks |
| `CoordinatorHealth.HealthCheckIsAllOrNothing` | shared/coordinator/src/coordinator.rs:572-605 | a health check succeeds exactly when the pipeline is full and every entry is an indictment; then exactly the named healthy clients are dropped and counted, otherwise nothing changes |
| `CoordinatorHealth.ParticipantsAreNotDropped` | shared/coordinator/src/coordinator.rs:572-605 | a client added to the participant filters of quorum many witnesses is not changed by any health check |
| `CoordinatorObject.Coordinator.constructor` | shared/coordinator/src/coordinator.rs:402-427 | starts in a valid initial state |
| `CoordinatorObject.Coordinator.Tick` | shared/coordinator/src/coordinator.rs:439-457 | computes the tick step for any pending clients, without aborting, and stays valid exactly when it admits nobody twice |
| `CoordinatorObject.Coordinator.TickWaitingForMembers` | shared/coordinator/src/coordinator.rs:952-1017 | computes the waiting step in place |
| `CoordinatorObject.Coordinator.ResetEpoch` | shared/coordinator/src/coordinator.rs:997-1011 | resets every field of the epoch for the admitted clients |
| `CoordinatorObject.Coordinator.TickWarmup` | shared/coordinator/src/coordinator.rs:1019-1035 | computes the warmup step in place |
| `CoordinatorObject.Coordinator.TickRoundTrain` | shared/coordinator/src/coordinator.rs:1037-1045 | computes the training step in place |
| `CoordinatorObject.Coordinator.TickRoundWitness` | shared/coordinator/src/coordinator.rs:1047-1103 | computes the witnessing step in place |
| `CoordinatorObject.Coordinator.TickCooldown` | shared/coordinator/src/coordinator.rs:1105-1143 | computes the cooldown step in place |
| `CoordinatorObject.Coordinator.LeaveRound` | shared/coordinator/src/coordinator.rs:1061-1100 | decides where a closed round leads and goes there |
| `CoordinatorObject.Coordinator.LeaveEpoch` | shared/coordinator/src/coordinator.rs:1129-1137 | pauses or waits for members at the end of an epoch |
| `CoordinatorObject.Coordinator.StartRoundTrain` | shared/coordinator/src/coordinator.rs:1160-1186 | writes the next slot of the ring and nothing else in it |
| `CoordinatorObject.Coordinator.StartCooldown` | shared/coordinator/src/coordinator.rs:1155-1158 | computes the cooldown start |
| `CoordinatorObject.Coordinator.StartWaitingForMembers` | shared/coordinator/src/coordinator.rs:1192-1201 | finishes the run at the last step, otherwise waits for members |
| `CoordinatorObject.Coordinator.ChangeState` | shared/coordinator/src/coordinator.rs:1203-1207 | sets state and time; the asserted change of state is a precondition that every caller meets |
| `CoordinatorObject.Coordinator.MoveClientsToExited` | shared/coordinator/src/coordinator.rs:1209-1224 | the in-place loop computes the compaction |
| `CoordinatorObject.Coordinator.Withdraw` | shared/coordinator/src/coordinator.rs:651-661 | marks a healthy client withdrawn, and reports why not otherwise |
| `CoordinatorObject.Coordinator.WithdrawClient` | shared/coordinator/src/coordinator.rs:651-661 | computes the withdrawal and stays valid |
| `CoordinatorObject.Coordinator.WithdrawAll` | shared/coordinator/src/coordinator.rs:663-670 | the loop marks every healthy client withdrawn |
| `CoordinatorObject.Coordinator.Eject` | shared/coordinator/src/coordinator.rs:672-687 | computes the ejection and stays valid |
| `CoordinatorObject.Coordinator.Pause` | shared/coordinator/src/coordinator.rs:689-702 | computes the pause and stays valid |
| `CoordinatorObject.Coordinator.Resume` | shared/coordinator/src/coordinator.rs:704-710 | computes the resumption and stays valid |
| `CoordinatorObject.Coordinator.HasWitnessed` | shared/coordinator/src/coordinator.rs:503-507 | the duplicate scan, with the abort on a stale index |
| `CoordinatorObject.Coordinator.WarmupWitness` | shared/coordinator/src/coordinator.rs:459-520 | computes the warmup witness and stays valid; an abort changes nothing |
| `CoordinatorObject.Coordinator.Witness` | shared/coordinator/src/coordinator.rs:522-570 | computes the round witness, stays valid and never reports a full list |
| `CoordinatorObject.Coordinator.HealthCheck` | shared/coordinator/src/coordinator.rs:572-605 | computes the health check and stays valid |
| `CoordinatorObject.Coordinator.FirstRefusal` | shared/coordinator/src/coordinator.rs:589-593 | the first entry that is not an indictment decides the answer |
| `CoordinatorObject.Coordinator.DropNamed` | shared/coordinator/src/coordinator.rs:594-604 | the loop drops the named healthy clients and counts them |
| `SwapOrNot.FlipIsInvolution` | shared/core/src/swap_or_not.rs:13-15 | reflecting an index at the pivot twice gives it back |
| `SwapOrNot.RoundIsInvolution` | shared/core/src/swap_or_not.rs:10-28 | every round of the shuffle is its own inverse, for every hash |
| `SwapOrNot.BackwardUndoesForward` | shared/core/src/swap_or_not.rs:5-30 | the rounds in reverse order undo the rounds |
| `SwapOrNot.ForwardUndoesBackward` | shared/core/src/swap_or_not.rs:5-30 | and the other way round |
| `SwapOrNot.ShuffleIsBijection` | shared/core/src/swap_or_not.rs:5-30 | for every hash, seed and count the shuffle is a bijection, with the reversed rounds as inverse |
| `SwapOrNot.ComputeShuffledIndex` | shared/core/src/swap_or_not.rs:5-30 | the loop computes the shuffle, and the reversed rounds recover the index |
| `ShuffleFreedom.EveryHashChooses` | shared/core/src/swap_or_not.rs:3-30 | under every hash the shuffle is a composition of ninety rounds, each of which reflects at its pivot and swaps the pairs it chooses |
| `ShuffleFreedom.EveryChoiceHasAHash` | shared/core/src/swap_or_not.rs:3-30 | and every composition of ninety such rounds is the shuffle of some hash: pivots and bits can all be chosen on their own, up to positions 2^40 apart, which share their bit |
| `CommitteeDraw.NewSelection` | shared/coordinator/src/committee_selection.rs:85-120 | exactly which sizes are accepted, and that accepted sizes leave room for every seat |
| `CommitteeDraw.SeatHolder` | shared/coordinator/src/committee_selection.rs:237-242 | every position is held by exactly one index |
| `CommitteeDraw.SeatsCount` | shared/coordinator/src/committee_selection.rs:237-242 | a window of positions has as many holders as places |
| `CommitteeDraw.CommitteeSizes` | shared/coordinator/src/committee_selection.rs:177-195 | the indices split into exactly the configured tie-breakers and verifiers, the rest are trainers |
| `CommitteeDraw.WitnessCount` | shared/coordinator/src/committee_selection.rs:167-202 | exactly the smaller of the total and the witness seats are elected, 32 seats when none are configured |
| `CommitteeDraw.ProofsAreUnique` | shared/coordinator/src/committee_selection.rs:204-242 | a committee or witness proof is accepted exactly when it is the one drawn for its index, and no two indices share a position |
| `CommitteeFreedom.DrawsAreFree` | shared/coordinator/src/committee_selection.rs:85-120 | for any index, any two seeds of a round and any four positions some hash lets the index draw two of them for the committee and two as a witness, one of each with either seed: the draw depends on the seed and on the salt |
| `CommitteeFreedom.RoundsDrawFreely` | shared/coordinator/src/committee_selection.rs:122-142 | the same for two rounds that differ in their seeds alone |
| `BloomFilters.BloomFilter.Add` | shared/core/src/bloom.rs:295-302 | sets exactly the bits its keys draw |
| `BloomFilters.BloomFilter.Has` | shared/core/src/bloom.rs:304-312 | answers whether all drawn bits are set |
| `BloomFilters.BloomFilter.Clear` | shared/core/src/bloom.rs:289-293 | leaves no bit set and keeps the size |
| `BloomFilters.AddedAllBits` | shared/core/src/bloom.rs:295-302 | after any additions a bit is set exactly when it was set before or some added item draws it |
| `BloomFilters.MembershipAfterAdds` | shared/core/src/bloom.rs:295-312 | after any additions to an empty filter, membership means every drawn bit was drawn by some item; an added item is always a member |
| `BloomFilters.PositionsAreFree` | shared/core/src/bloom.rs:295-312 | every item draws a bit for every key, independent of all others |
| `BloomFilters.OneSharedBitIsNotEnough` | shared/core/src/bloom.rs:295-312 | two items that share the bit of one key are told apart by another |
| `Consensus.Vote` | shared/coordinator/src/coordinator.rs:790-797 | a witness votes for the first commitment in its filter, or for none |
| `Consensus.Tally` | shared/coordinator/src/coordinator.rs:784-797 | the scores are the votes, one a witness at most |
| `Consensus.ScoreCountsVoters` | shared/coordinator/src/coordinator.rs:784-797 | a score is the number of witnesses who vote for the commitment |
| `Consensus.SelectConsensusCommitment` | shared/coordinator/src/coordinator.rs:784-804 | the result is the last of the commitments with the greatest score, provided it meets the quorum; None exactly when none does |
| `Consensus.LastMaximum` | shared/coordinator/src/coordinator.rs:798-803 | the last greatest score that meets the quorum |
| `Consensus.ScoresShareVotes` | shared/coordinator/src/coordinator.rs:784-797 | two commitments together have at most as many votes as there are witnesses |
| `Consensus.QuorumIsMajority` | shared/coordinator/src/coordinator.rs:745-757 | the quorum is defined for every positive number of nodes and is a strict majority exactly when that number is not four |
| `Consensus.AtMostOneQualifies` | shared/coordinator/src/coordinator.rs:784-804 | at most one commitment meets the quorum, for every number of nodes other than four |
| `Consensus.FourWitnessesCanTie` | shared/coordinator/src/coordinator.rs:745-804 | with four nodes, whatever the hash: two commitments whose digests draw different bits can both meet the quorum, by the votes of four different elected witnesses with valid proofs |
| `DataSelection.SharesTile` | shared/coordinator/src/data_selection.rs:36-55 | the shares cover exactly the indices of the round and do not overlap |
| `DataSelection.SharesAreEven` | shared/coordinator/src/data_selection.rs:38-46 | an earlier share is as large as a later one or one larger, counting empty shares as zero |
| `DataSelection.BatchIdsForRound` | shared/coordinator/src/data_selection.rs:60-90 | aborts exactly when there is no trainer to divide by; otherwise lists exactly the shares, in order |
| `DataSelection.AssignData` | shared/coordinator/src/data_selection.rs:7-58 | aborts exactly when a client is past the selection; otherwise the assignment of that selection: its shuffled trainers get the shares in order, one each, and nothing is assigned without trainers |
| `DataSelection.SpreadShares` | shared/coordinator/src/data_selection.rs:36-57 | the loop hands the shares to the nodes in order |
| `DataSelection.CollectTrainers` | shared/coordinator/src/data_selection.rs:19-27 | the clients drawn as trainers, in order, or the abort when a client is past the selection |
| `DataSelection.ShuffledTrainersFacts` | shared/coordinator/src/data_selection.rs:19-34 | the shuffled trainers are drawn trainers and no one is listed twice |
| `DataSelection.AssignmentTilesTheRound` | shared/coordinator/src/data_selection.rs:36-57 | the assigned intervals cover exactly the round, and are disjoint and in order |
| `DataSelection.AssignmentIsFair` | shared/coordinator/src/data_selection.rs:36-57 | the shuffled trainers get one interval each in their order, while there is data; nobody gets more than an earlier one, or less by more than one |
| `DataSelection.SeedDecidesShares` | shared/coordinator/src/data_selection.rs:19-34 | of two trainers the one in front gets the first interval exactly when the seed of the round is even |
| `DataSelection.AssignmentGoesToTrainers` | shared/coordinator/src/data_selection.rs:7-58 | only trainers are assigned data, each at most once |
| `DataSelection.DataIndexForStep` | shared/coordinator/src/data_selection.rs:108-127 | the data index of a step is the sum of the batch sizes before it, and 0 past the last step |
| `DataSelection.SeatCounts` | shared/coordinator/src/audit_selection.rs:32-36 | there are as many verifier seats as verifiers |
| `DataSelection.TrainerCount` | shared/coordinator/src/data_selection.rs:19-34 | as many trainers are listed as there are trainer seats |
| `DataSelection.RoundHasTrainersIff` | shared/coordinator/src/data_selection.rs:19-34 | a round has trainers exactly when the verification percentage is below 100 |
| `DataRuns.AssignmentIsOnRecord` | shared/coordinator/src/data_selection.rs:7-58 | over every run, what the selection of the round itself assigns at any moment of a round is the assignment recorded when the round started |
| `DataRuns.TakenIsOnRecordIff` | shared/client/src/state/train.rs:167-193 | over every run, the clients of a round take up the data recorded for it exactly when the last step of the epoch is still open, or there is nothing to take up |
| `DataRuns.AssignedOnce` | shared/coordinator/src/data_selection.rs:7-58 | a data index is assigned in one round and to one trainer at most |
| `DataRuns.DataIsAssignedOnceIff` | shared/coordinator/src/data_selection.rs:7-127 | over every run, a data index reached so far is assigned to a trainer exactly when the verification percentage is below 100; it is assigned in one round and to one trainer only, and the trainers of a round are all different |
| `CoordinatorExamples.AllVerifyExample` | shared/coordinator/src/data_selection.rs:19-34 | a run with everybody a verifier, whose first round has data that is in nobody's assignment |
| `BatchRamp.AddedIsNearest` | shared/coordinator/src/coordinator.rs:1309-1321 | the ramp in exact arithmetic is the nearest integer on the line from the start to the end size |
| `BatchRamp.BatchesRamp` | shared/coordinator/src/coordinator.rs:1309-1321 | with that ramp every batch has the interpolated size during the warmup tokens and the end size from then on |
| `BatchRamp.RampIsMonotone` | shared/coordinator/src/coordinator.rs:1309-1321 | batch sizes never shrink as tokens grow, begin at the start size and stay within the configured range |
| `BatchRamp.RoundsNeverShrink` | shared/coordinator/src/coordinator.rs:894-912 | over every run with that ramp a round has the ramped size of the tokens before it; so rounds never get smaller, and every round has data |
| `DeterministicShuffle.Shuffle` | shared/core/src/deterministic_shuffle.rs:6-13 | the in-place swaps compute the shuffle of the seed |
| `DeterministicShuffle.Lcg.NextRange` | shared/core/src/lcg.rs:15-23 | advances the generator and stays below the bound |
| `DeterministicShuffle.ShuffleIsPermutation` | shared/core/src/deterministic_shuffle.rs:6-13 | for every seed the shuffle is a permutation |
| `DeterministicShuffle.ShuffleDeals` | shared/core/src/deterministic_shuffle.rs:6-13 | the shuffle trades every position with the partner drawn for it, from the last down, one step of the generator each |
| `DeterministicShuffle.EveryOrderHasItsDraws` | shared/core/src/deterministic_shuffle.rs:6-13 | every order of a list without repeats comes from exactly one list of draws |
| `DeterministicShuffle.LcgIsBijection` | shared/core/src/lcg.rs:3-23 | every state of the generator has exactly one predecessor |
| `DeterministicShuffle.TwoTradeIffOdd` | shared/core/src/deterministic_shuffle.rs:6-13 | two items trade places exactly when the seed is odd |
| `AuditSelection.SelectAudits` | shared/coordinator/src/audit_selection.rs:18-54 | one audit for every verifier of the selection among the clients, in order, each drawn from the given assignments; none when there are none; aborts exactly when there are some and a client is past the selection |
| `AuditSelection.SelectAuditsForCurrentRound` | shared/coordinator/src/audit_selection.rs:68-80 | draws seats and assignments anew with the given number of tie-breakers; fails exactly when the committee sizes do, and aborts exactly when the sizes are accepted and there are more clients than the round recorded |
| `AuditFreedom.PicksAreFree` | shared/coordinator/src/audit_selection.rs:37-45 | any number of indices pick independently of each other, under any seeds: what is picked is decided by the hash of seed, salt and index |
| `AuditFreedom.AuditsAreFree` | shared/coordinator/src/audit_selection.rs:37-80 | whatever each verifier is to audit, some hash with the same seats and assignments makes it so |
| `AuditSelection.AuditsFollowTheirSelection` | shared/coordinator/src/audit_selection.rs:18-80 | exactly one audit for each verifier seat of the audit's own selection that a client holds, each of what that selection assigns to one of its trainers, and nobody audits themselves |
| `AuditRuns.AuditedIsOnRecordIff` | shared/coordinator/src/audit_selection.rs:68-80 | over every run and for every number of tie-breakers: the assignments audits are drawn from are those the round made exactly when the reserved seats take no trainer away, or no trainer left has more than one item and the first of them are the same |
| `AuditRuns.AuditorsAreVerifiersIff` | shared/coordinator/src/audit_selection.rs:68-80 | over every run, whoever is asked to audit is a verifier of the round exactly when the reserved seats take no trainer away or nobody is asked |
| `AuditRuns.AuditsAreSound` | shared/coordinator/src/audit_selection.rs:18-80 | over every run, when the reserved seats take no trainer away: one audit for each verifier of the round that is left, each of an assignment the round made to one of its trainers, and nobody audits themselves |
| `CoordinatorExamples.TieBreakerAuditExample` | shared/coordinator/src/audit_selection.rs:55-80 | a run of three members, half of them verifiers, that is audited with one tie-breaker: whatever the hash, the only audit is of an interval assigned to nobody, and falls to a member who trained |
| `AuditRuns.AuditsAbortIff` | shared/coordinator/src/audit_selection.rs:68-80 | over every run, asking for audits aborts exactly when there are clients, no round of the epoch has started, and neither tie-breakers nor a number of witnesses make the empty selection invalid |
| `CoordinatorExamples.EarlyAuditExample` | shared/coordinator/src/audit_selection.rs:68-80 | a run in warmup, where asking for audits aborts |
| `StableSort.SortIsStable` | shared/event-sourcing/src/timeline.rs:439-440 | the sort is ordered by time and keeps the order within each instant |
| `StableSort.SortIsUnique` | shared/event-sourcing/src/timeline.rs:439-440 | no other list is so ordered: a stable sort is determined |
| `StableSort.SortKeepsEntries` | shared/event-sourcing/src/timeline.rs:439-440 | the sort keeps every entry |
| `StableSort.SortInBatches` | shared/event-sourcing/src/timeline.rs:478-480 | sorting a sorted list with a later batch is sorting everything |
| `StableSort.MergeKeepsPrefixIff` | shared/event-sourcing/src/timeline.rs:458-480 | a merge leaves the first entries where they are exactly when they are sorted and nothing behind them or new is older than the last of them |
| `Timeline.RefreshSortsAll` | shared/event-sourcing/src/timeline.rs:439-498 | either path of a refresh leaves the stable sort of everything that arrived |
| `Timeline.LaterEntriesAppend` | shared/event-sourcing/src/timeline.rs:452-498 | entries not older than the newest one are added at the end, and what is there is not touched, whatever its order |
| `Timeline.MergeRestoresOrder` | shared/event-sourcing/src/timeline.rs:452-489 | a merge gives the stable sort of all arrivals from any timeline that keeps the entries of each instant in order, sorted or not |
| `Timeline.RefreshKeepsInstants` | shared/event-sourcing/src/timeline.rs:439-498 | neither path of a refresh loses an entry or reorders the entries of an instant |
| `Timeline.HistorySortsAll` | shared/event-sourcing/src/timeline.rs:439-498 | so does any sequence of refreshes after a load |
| `Timeline.PushKeepsSortIff` | shared/event-sourcing/src/timeline.rs:501-526 | a push keeps the sort exactly when it is not older than the newest entry |
| `Timeline.PushFromThePastExample` | shared/event-sourcing/src/timeline.rs:501-526 | an older entry pushed behind a newer one |
| `Timeline.RecordedTailIff` | shared/event-sourcing/src/timeline.rs:458-483 | replaying a merge from the kept checkpoint is right for a projection that forgets nothing exactly when the entries before the checkpoint were settled in that sense |
| `Timeline.LateEntryExample` | shared/event-sourcing/src/timeline.rs:439-526 | 6000 pushed entries with one of them late, and a refresh: the merge replays from entry 5000 and misses that the late entry has moved in front |
| `Timeline.RangesAreTight` | shared/event-sourcing/src/timeline.rs:593-616 | the time range of a node is from its earliest to its latest entry, and only nodes with entries have one |
| `Timeline.FirstSeenListsAll` | shared/event-sourcing/src/timeline.rs:586-634 | the entity list names every node with entries, and the coordinator if it has any, once |
| `Timeline.FirstSeenInOrder` | shared/event-sourcing/src/timeline.rs:624-634 | in the order in which they first appear |
| `Timeline.CheckpointsFrame` | shared/event-sourcing/src/timeline.rs:564-583 | checkpoints depend only on the entries before them |
| `Timeline.ClusterTimeline.constructor` | shared/event-sourcing/src/timeline.rs:173-183 | an empty timeline |
| `Timeline.ClusterTimeline.Load` | shared/event-sourcing/src/timeline.rs:530-560 | sorts what was decoded and indexes it |
| `Timeline.ClusterTimeline.ExtendCheckpoints` | shared/event-sourcing/src/timeline.rs:564-583 | from a right base every checkpoint equals the replay of the entries before it, and the tail the replay of all; from any base the tail is the base with the new entries applied |
| `Timeline.ClusterTimeline.Refresh` | shared/event-sourcing/src/timeline.rs:439-498 | on a timeline in any order: entries and caches are right on both paths, nothing is lost, and every merge puts the whole timeline back in order; checkpoints and tail are right after every append, and after a merge whenever the entries before the kept checkpoint are settled, which they are on a sorted timeline; a sorted timeline stays the sort of all arrivals |
| `Timeline.ClusterTimeline.AppendFrom` | shared/event-sourcing/src/timeline.rs:490-497 | the append path extends every index from the old end |
| `Timeline.ClusterTimeline.MergeFrom` | shared/event-sourcing/src/timeline.rs:452-489 | the merge path rebuilds what depends on all entries, whatever their order |
| `Timeline.ClusterTimeline.Rollback` | shared/event-sourcing/src/timeline.rs:463-476 | goes back to the replay at the last checkpoint before the merge point |
| `Timeline.ClusterTimeline.Merge` | shared/event-sourcing/src/timeline.rs:458-483 | merges and replays from the rollback point only, on entries in any order; right whenever the entries before that point are settled |
| `Timeline.ClusterTimeline.PartitionPoint` | shared/event-sourcing/src/timeline.rs:459-461 | a place where times cross that of the first new entry; on sorted entries the number of entries before it |
| `Timeline.ClusterTimeline.RebuildEntityIds` | shared/event-sourcing/src/timeline.rs:586-590 | the entity list is that of the entries |
| `Timeline.ClusterTimeline.ExtendEntityIds` | shared/event-sourcing/src/timeline.rs:624-634 | extends it by the entities of the new entries |
| `Timeline.ClusterTimeline.ExtendTimestampRanges` | shared/event-sourcing/src/timeline.rs:593-616 | extends the ranges by the new entries |
| `Timeline.ClusterTimeline.PushNodeEvent` | shared/event-sourcing/src/timeline.rs:501-514 | appends, keeps index and caches right, loses nothing, and keeps the sort exactly when time does not go back |
| `Timeline.ClusterTimeline.PushCoordinator` | shared/event-sourcing/src/timeline.rs:516-526 | the same for a coordinator state |
| `Timeline.ClusterTimeline.SnapshotAt` | shared/event-sourcing/src/timeline.rs:638-666 | the snapshot at an index equals replaying all entries up to it from empty, at the cost of replaying at most 5000 entries |
| `MerkleTrees.NewTree` | shared/core/src/merkle_tree.rs:243-281 | the level loops build the leaves followed by every level above them |
| `MerkleTrees.FindPath` | shared/core/src/merkle_tree.rs:287-322 | None exactly past the last leaf; otherwise the path from that leaf to the root |
| `MerkleTrees.PathVerifies` | shared/core/src/merkle_tree.rs:189-208 | every leaf's path verifies its hash |
| `MerkleTrees.RootKeepsOrder` | shared/core/src/merkle_tree.rs:28-33 | children are hashed in order: a hash that keeps the first child makes the first leaf the root, one that keeps the second the last leaf |
| `MerkleTrees.PathEndsAtRoot` | shared/core/src/merkle_tree.rs:206-208 | with two or more leaves the path ends at the root of the tree |
| `MerkleTrees.ForgeryIsCollision` | shared/core/src/merkle_tree.rs:189-199 | if another hash verifies on a leaf's path, two different pairs of nodes have the same hash |
| `MerkleTrees.OnlyTheLeafVerifiesIff` | shared/core/src/merkle_tree.rs:189-199 | with an injective node hash only the leaf itself verifies, exactly when there are two or more leaves; a single leaf's path accepts everything |
| `MerkleTrees.ItemForgeryIsCollision` | shared/core/src/merkle_tree.rs:189-204 | in a tree of two or more items, another item that verifies gives two different inputs with the same SHA-256 |
| `MerkleTrees.LeafForNodeIsCollision` | shared/core/src/merkle_tree.rs:14-33 | a leaf hash equal to a node hash gives two different inputs with the same SHA-256 |
| `MerkleTrees.BuildLevels` | shared/core/src/merkle_tree.rs:257-279 | the loop over levels with its moving offsets |
| `MerkleTrees.NodeCount` | shared/core/src/merkle_tree.rs:221-241 | n leaves make at most 2n - 1 + ceil(log2 n) nodes |
| `MerkleTrees.CeilLog2Meaning` | shared/core/src/merkle_tree.rs:221-241 | the logarithm in that bound is the usual one |
| `Barrier.CancellableBarrier.constructor` | shared/core/src/cancellable_barrier.rs:31-42 | a barrier of n > 0 places |
| `Barrier.CancellableBarrier.Enter` | shared/core/src/cancellable_barrier.rs:46-73 | wait up to its first return or sleep |
| `Barrier.CancellableBarrier.Recheck` | shared/core/src/cancellable_barrier.rs:58-64 | the loop test after a wake-up |
| `Barrier.CancellableBarrier.Cancel` | shared/core/src/cancellable_barrier.rs:75-79 | only sets the flag |
| `Barrier.StepKeepsInv` | shared/core/src/cancellable_barrier.rs:45-79 | every step of any thread keeps the counts right |
| `Barrier.OkMeansAllArrived` | shared/core/src/cancellable_barrier.rs:45-79 | in every interleaving: a call returns Ok only from a generation in which exactly total calls arrived; the count is the arrivals of the current generation and below total; every counted call is in a full generation or the current one |
| `Barrier.NoWakeupIsLost` | shared/core/src/cancellable_barrier.rs:56-71 | a call left asleep still has a reason to sleep; one that wakes sleeps again, returns Ok or returns Err exactly as its generation is filling, is full, or the barrier is cancelled |
| `Barrier.CancelledRefusesLaterCalls` | shared/core/src/cancellable_barrier.rs:48-50 | after a cancel nothing is counted any more and every later call returns Err |
| `Barrier.ReleasedCallMayBeRefused` | shared/core/src/cancellable_barrier.rs:62-64 | a call of a full generation returns Err when a cancel comes before it runs again |
| `Packing.AnyFitKeepsPacking` | scripts/preprocess-finetuning-data.py:289-306 | placing a sample in any bin with room, and in a new bin only if there is none, keeps: every sample in exactly one bin, no bin over the length, no two bins that would fit in one |
| `Packing.FirstFitIsPacking` | scripts/preprocess-finetuning-data.py:289-306 | so first-fit packs every group that way |
| `Packing.FirstFitKeepsOrder` | scripts/preprocess-finetuning-data.py:289-306 | a group offered longest first fills every bin longest first, and its first sample opens the first bin |
| `Packing.BinsAreBounded` | scripts/preprocess-finetuning-data.py:285-306 | two or more bins: bins * (length + 1) is at most twice the tokens |
| `Packing.PackIsFull` | scripts/preprocess-finetuning-data.py:564-598 | a pack has exactly length inputs and position ids, its sequence lengths add up to length, and so do its labels when labels are as long as inputs |
| `Packing.PackLengths` | scripts/preprocess-finetuning-data.py:325-331 | its sequence lengths are those of its samples in order, and then that of the padding if there is any |
| `Packing.PaddingFollows` | scripts/preprocess-finetuning-data.py:572-577 | after the samples come padding and ignored labels |
| `Packing.PositionsCountOn` | scripts/preprocess-finetuning-data.py:579-587 | and position ids that count on from the last sample |
| `Packing.SampleIsInPack` | scripts/preprocess-finetuning-data.py:314-331 | every sample's inputs are in its pack, from where the tokens before it end |
| `Packing.PositionsRestart` | scripts/preprocess-finetuning-data.py:325-330 | its position ids count from zero there |
| `Packing.LabelsAreInPack` | scripts/preprocess-finetuning-data.py:322-324 | and its labels are there when labels are as long as inputs |
| `PackedDatasets.FirstFitGroup` | scripts/preprocess-finetuning-data.py:287-306 | the loops compute first-fit, which is a packing |
| `PackedDatasets.ChooseFitting` | scripts/preprocess-finetuning-data.py:394-413 | any bin with room for the sample, or a new one |
| `PackedDatasets.RandomFitGroup` | scripts/preprocess-finetuning-data.py:391-413 | a packing, whatever the random choices |
| `PackedDatasets.SortIsSorted` | scripts/preprocess-finetuning-data.py:282-283 | the group sorted longest first |
| `PackedDatasets.SortIsStable` | scripts/preprocess-finetuning-data.py:282-283 | samples of one length stay in their order |
| `PackedDatasets.RandomShuffle` | scripts/preprocess-finetuning-data.py:415-416 | a permutation, whatever the draws |
| `PackedDatasets.CrowdedPermuted` | scripts/preprocess-finetuning-data.py:415-416 | shuffling the bins does not make two of them fit in one |
| `PackedDatasets.AllKeptAreReachedIff` | scripts/preprocess-finetuning-data.py:262-280 | all samples that fit are packed exactly when no group without one comes before one of them; otherwise reading stops early |
| `PackedDatasets.BarrenGapExample` | scripts/preprocess-finetuning-data.py:262-280 | two samples in groups of one, the first too long: the second fits and is never read |
| `PackedDatasets.WithinTwiceTheOptimum` | scripts/preprocess-finetuning-data.py:285-413 | any other packing of the same samples needs more than half as many bins |
| `PackedDatasets.GroupsAreFull` | scripts/preprocess-finetuning-data.py:262-280 | all groups but the last are of full size |
| `PackedDatasets.PackedDataset.FetchGroup` | scripts/preprocess-finetuning-data.py:264-277 | reads one group, keeps what fits and counts the rest as dropped |
| `PackedDatasets.PackedDataset.AddPack` | scripts/preprocess-finetuning-data.py:559-598 | pads and adds the pack and counts its tokens |
| `PackedDatasets.PackedDataset.EmitBin` | scripts/preprocess-finetuning-data.py:313-333 | lays the samples of a bin end to end |
| `PackedDatasets.PackedDataset.EmitBins` | scripts/preprocess-finetuning-data.py:308-333 | one pack a bin until the limit of packs |
| `PackedDatasets.PackedDataset.PackGroup` | scripts/preprocess-finetuning-data.py:391-446 | packs one group either way; without a limit every sample of the group is in exactly one pack, and there are fewer than twice as many packs as any packing of the group needs |
| `PackedDatasets.PackedDataset.PackNext` | scripts/preprocess-finetuning-data.py:249-454 | one group: keeps what has been packed and what is still to be read in balance, and ends the reading when nothing in the group fits |
| `PackedDatasets.PackedDataset.PackAll` | scripts/preprocess-finetuning-data.py:249-454 | without a limit the packs hold exactly the samples reached, each once, and the rest of what was read is counted as dropped; with a limit there are no more packs than that; the padded total is at most twice the tokens plus one pack a group |
| `IntervalTrees.OverlapsIff` | shared/core/src/interval_tree.rs:24-26 | the comparison of ends is whether two intervals share a point |
| `IntervalTrees.NeighboursDecide` | shared/core/src/interval_tree.rs:107-117 | in a disjoint tree an interval meets a stored one exactly when it meets one of its two neighbours |
| `IntervalTrees.IntervalTree.Insert` | shared/core/src/interval_tree.rs:107-120 | succeeds exactly when the interval meets no stored one, and then adds only it; intervals stay disjoint |
| `IntervalTrees.IntervalTree.Get` | shared/core/src/interval_tree.rs:122-128 | the value of the one stored interval that holds the point, or None |
| `IntervalTrees.InsertAddsItsPoints` | shared/core/src/interval_tree.rs:107-128 | after an insertion its points have its value and all others what they had |
| `IntervalTrees.IntervalTree.Clear` | shared/core/src/interval_tree.rs:103-105 | empties the tree |
| `FixedVecs.FixedVec.constructor` | shared/core/src/fixed_vec.rs:16-21 | empty, all slots default |
| `FixedVecs.FixedVec.Push` | shared/core/src/fixed_vec.rs:39-47 | appends, or fails exactly when full |
| `FixedVecs.FixedVec.Pop` | shared/core/src/fixed_vec.rs:49-56 | undoes a push, and None exactly when empty |
| `FixedVecs.FixedVec.Clear` | shared/core/src/fixed_vec.rs:74-79 | empties the vector and resets its slots |
| `FixedVecs.FixedVec.Remove` | shared/core/src/fixed_vec.rs:113-128 | takes out the element at the index and closes the gap |
| `FixedVecs.FixedVec.Insert` | shared/core/src/fixed_vec.rs:130-145 | inserts at the index, with the two errors in their order |
| `FixedVecs.FixedVec.Compact` | shared/core/src/fixed_vec.rs:151-161 | one pass with a reading and a writing position leaves the kept elements in front |
| `FixedVecs.FixedVec.Retain` | shared/core/src/fixed_vec.rs:147-168 | keeps exactly the elements that pass, in order, and resets the rest |
| `FixedVecs.FilteredCounts` | shared/core/src/fixed_vec.rs:147-168 | kept elements are kept as often as they occurred, others not at all |
| `FixedVecs.SameContentsSameMemory` | shared/core/src/fixed_vec.rs:7-12 | every operation leaves unused slots at the default, so the derived comparison of memory is equality of contents |

## Left out

- Machine widths: counters, timestamps, the epoch number, data indices and token products are unbounded; wrap-around and overflow are not modelled.
- SwapOrNot.ComputeShuffledIndex: pivot + count does not wrap; for counts above 2^63 the original sum would overflow.
- The batch-size ramp of the coordinator is an arbitrary function of the tokens processed; `BatchRamp` gives it in exact arithmetic, and the rounding of the floating-point interpolation is not modelled. Quorum thresholds, which the original computes by multiplying with 2/3 in floating point, are exact integer quotients.
- CoordinatorRuns.RunKeepsTracedInv: over runs in which no tick is offered a client twice, as the membership layer supplies them; the original does not check this.
- CoordinatorTheorems.ReachableStepsDoNotPanic: the index safety of a warmup witness is an if-and-only-if, not a guarantee, because the client list is compacted while stored indices are kept.
- The model and checkpoint description inside the coordinator state and the checkpoint operation: they do not touch the fields modelled here.
- The learning-rate schedule, the cold-start bounds, and the on-chain and centralized programs around the coordinator.
- Timeline.ClusterTimeline.Refresh: starts from right checkpoints; what follows a merge that left wrong ones is not stated. Which crossing the search finds on unsorted entries is left open.
- The projection applied to timeline entries is an arbitrary function; reading and decoding event files, progress reports and file sizes are not modelled. The order in which node ranges are listed is not modelled.
- The owned form of a Merkle proof, which combines siblings in the opposite order, and the capacity hint of the node list.
- IntervalTrees.IntervalTree.Insert: keys are integers rather than any ordered type; the ordered map is a map searched for its nearest keys.
- Removal from the interval index, which deletes by start alone, and printing and parsing of batch identifiers.
- FixedVecs.FixedVec.Retain: the predicate is a pure function; one with side effects is not modelled.
- The reset of the barrier, which also moves the generation on and would let a waiting call return Ok.
- The splitting packer, which reads a field its packs do not have, tokenization, and dataset upload.
- SHA-256, FNV, signatures, serialization, networking, providers, model and tensor code, the website and the language bindings.
