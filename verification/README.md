# A verified model of viewstamp's driver layer

viewstamp is a viewstamped-replication library whose consensus endpoint is wrapped by drivers.
This project models the stateful machinery around that endpoint and states what it keeps over
every run:

- **Batching** (`Batch`, `Aggregate`, `AggregateProofs`, `AggregatePump`): the batch codec; the
  aggregator's shared queue, its pump, the driver and the callers as one state machine, each
  lock scope or await-to-await stretch one step, in every interleaving; the packing loop.
- **Submits** (`Budget`, `Session`, `SessionProofs`, `SubmitVerdicts`): the in-flight budget at
  the grain of single atomic operations; the life of a submit from the handle's first check to
  its oneshot, across commit, cancellation, retirement and teardown; what its outcome tells the
  aggregator.
- **Reconfiguration** (`Membership`, `Planner`, `PlannerProofs`, `Executor`, `ExecutorProofs`,
  `Job`, `JobProofs`): slot-list memberships and single-member deltas; the planner; the
  re-planning executor against an arbitrary script of memberships, probe answers and verdicts;
  the polled job around it.
- **Blocks** (`BlockStore`, `BlockLane`): the content-addressed store, its collector and restore;
  the storage lane under every schedule, endpoint rebuild and crash.
- **Connections** (`StreamConns`, `Bridge`): the stream driver's connection table; the byte
  counter shared by driver and writer.

State that the program changes in place is a class whose methods are specified by functions on
the class's value; the theorems are about those functions. Loops of the program are methods with
loops. Concurrency is a `Step` datatype, an enabling predicate `Can` and a function `Do`; theorems
quantify over every sequence of enabled steps.

Idealisations: the 128-bit configuration id and block address are collision-free (an id is the
data it was derived from); member ids are natural numbers; counters are unbounded except where a
saturating or checked operation of the program is modelled (`USIZE_MAX`); clocks, sockets, the
endpoint's verdicts, probe answers and commits are inputs of a step. A channel is an atomic FIFO
queue with close, a oneshot a write-once cell whose receiver may go away.

Where the program does less than its comments suggest the model follows the program, and lemmas
give the exact condition with an instance:

- A packed body can be refused `Busy` although the pump is the only submitter
  (`SessionProofs.SoleSubmitterBusy`, `SessionProofs.SoleSubmitterCanBeBusy`): a delivery answers
  the reply before it drops the guard. Room for two bodies is enough to rule it out
  (`SessionProofs.RoomForTwoIsEnough`).
- A reservation can be refused while no guard is live, or although both caps had room when it
  began (`Budget.AdmittedExactly`, `Budget.TransientRefusal`, `Budget.RoomAtTheStartIsNotEnough`):
  a reservation about to be rolled back counts, and each counter is looked at on its own.
- A slot whose address moves away and back can be dialed twice (`StreamConns.RekeySingleExactly`,
  `StreamConns.FlappingSlotIsDialedTwice`), and past the cap an eviction makes no room
  (`StreamConns.AdmittedExactly`, `StreamConns.EvictionCanBeWasted`).
- A step refused transiently is posted again without a new look at the evidence, and exactly then
  (`JobProofs.FreshExactly`); a demotion so posted can leave a successor without a proven-live
  majority (`JobProofs.RepostCanLoseQuorum`). Fresh ones cannot (`JobProofs.FreshIsSafe`).

## Model

| member | source | states |
|---|---|---|
| `Batch.RoundTrip` | viewstamp-proto/src/batch/mod.rs:196-260 | Parsing the encoding of any non-empty batch gives back its units. |
| `Batch.Canonical` | viewstamp-proto/src/batch/mod.rs:352-397 | Whatever parses is the one canonical encoding of what it parsed to, so trailing bytes, a wrong count and a short unit are all refused. |
| `Batch.LayoutIs` | viewstamp-proto/src/batch/mod.rs:11-19 | A body is a big-endian count, then each unit behind its big-endian length. |
| `Batch.ErrorsAreExact` | viewstamp-proto/src/batch/mod.rs:352-397 | Every malformed body is refused with what is wrong where it goes wrong: no count, a zero count, a count the bytes cannot hold; and after the last whole unit, bytes left over, no room for a length, or a length past the end. |
| `Batch.ParseView` | viewstamp-proto/src/batch/mod.rs:354-397 | The one-pass validation returns the exact error of the layout, or the region and count. |
| `Batch.Walk` | viewstamp-proto/src/batch/mod.rs:518-533 | Iterating a validated view yields exactly the units, in order. |
| `Batch.BatchBuilder.Push` | viewstamp-proto/src/batch/mod.rs:196-223 | A unit is admitted exactly when the body including it fits the budget; a refusal changes nothing. |
| `Batch.BatchBuilder.Finish` | viewstamp-proto/src/batch/mod.rs:251-260 | An empty batch is refused; otherwise the bytes are the encoding of the units pushed. |
| `Aggregate.MaxUnitsExact` | viewstamp-driver/src/aggregate/mod.rs:341-348 | `n` units are within the cap exactly when the reply priced at the ceiling fits a frame, for every ceiling, saturation included. |
| `Aggregate.Snapshot` | viewstamp-driver/src/aggregate/mod.rs:722-730 | The snapshotted byte limit is the smaller of the request bound and the driver's own byte cap, so it exceeds neither. |
| `Aggregate.EncodedRequestLen` | viewstamp-driver/src/aggregate/mod.rs:333-339 | The checked fold is the encoded length, and `None` exactly on overflow. |
| `Aggregate.CheckAdmits` | viewstamp-driver/src/aggregate/mod.rs:361-368 | The submit-time check admits exactly the units whose count and whose encoded body are within the two limits. |
| `Aggregate.SharedQueue.Send` | viewstamp-driver/src/aggregate/mod.rs:532-552 | A closed queue refuses; an open one appends and hands out the waker. |
| `AggregateProofs.SendExactly` | viewstamp-driver/src/aggregate/mod.rs:532-552 | A send lands behind everything queued while the queue is open; once closed each of its units is refused because the pump is gone and its budget returned. |
| `Aggregate.SharedQueue.Drop` | viewstamp-driver/src/aggregate/mod.rs:771-789 | Only the last handle takes the waker, after the count is down. |
| `Aggregate.SharedQueue.PollIdle` | viewstamp-driver/src/aggregate/mod.rs:919-934 | An entry first, then the end, and only then a registered park. |
| `Aggregate.SharedQueue.CloseAndTake` | viewstamp-driver/src/aggregate/mod.rs:667-674 | Closing and taking everything is one lock scope. |
| `AggregateProofs.ResolvedOnce` | viewstamp-driver/src/aggregate/mod.rs:640-677 | In every reachable state each unit is waiting, flying, answered or dropped, exactly one and once; a sender is dropped only when its receiver is gone. |
| `AggregateProofs.GoneIsClean` | viewstamp-driver/src/aggregate/mod.rs:638-679 | Once the pump is gone nothing is queued, deferred or flying, the queue budget is only that of senders about to be refused, and every other unit has its answer or no receiver. |
| `AggregateProofs.RetryClasses` | viewstamp-driver/src/aggregate/mod.rs:831-869 | `Refused` only for a unit never packed or whose body never entered the driver; a packed unit's reply names its body; `Ok` and `CommittedReplyLost` only after that body committed. The verdicts it rests on are those `SubmitVerdicts.VerdictGuards` derives. |
| `AggregateProofs.NoLostWakeup` | viewstamp-driver/src/aggregate/mod.rs:771-789 | A parked pump with work, or with no handle left, has been woken since it parked or has a wake under way. |
| `AggregateProofs.ShippedInOrder` | viewstamp-driver/src/aggregate/mod.rs:941-992 | Entries leave in acceptance order; the bodies carry, in order and whole, exactly those packed, and whatever was taken out and not packed had every caller gone or was drained at the end; at most one entry is deferred. |
| `AggregateProofs.BodiesFit` | viewstamp-driver/src/aggregate/mod.rs:370-387 | Every body shipped is a non-empty batch within the submit limit, and its ceiling-priced reply fits. |
| `AggregateProofs.PackablePop` | viewstamp-driver/src/aggregate/mod.rs:964-984 | Popping keeps every body within limits, and the arm for an entry too large for an empty body is never taken. |
| `AggregateProofs.NothingMintedAfterEnd` | viewstamp-driver/src/aggregate/mod.rs:1072-1134 | From a stall, an abandonment or a dropped pump on, no run hands over another body. |
| `AggregateProofs.LastBody` | viewstamp-driver/src/aggregate/mod.rs:1072-1134 | A stall, an abandonment and a dropped pump end the pump, a verdict or a refusal does not; after the former no run hands over another body. |
| `AggregateProofs.EndIsExplained` | viewstamp-driver/src/aggregate/mod.rs:1072-1134 | At a stall the flying callers are told unknown and every waiting unit refused, both for the stall; at any other end the waiting ones are told the pump is gone. |
| `AggregateProofs.DemuxIsPositional` | viewstamp-driver/src/aggregate/mod.rs:803-829 | A reply with one result per unit gives caller `i` result `i`. |
| `AggregateProofs.OtherRepliesAreLost` | viewstamp-driver/src/aggregate/mod.rs:803-829 | Any other reply, malformed or miscounted, tells every caller its reply is lost, never that the body was refused. |
| `AggregateProofs.AnswerReachesItsUnit` | viewstamp-driver/src/aggregate/mod.rs:803-829 | In every reachable state, a reply with one result per unit of the flying body gives unit `i` of that body result `i` and nobody else anything. |
| `AggregateProofs.BounceRefuses` | viewstamp-driver/src/aggregate/mod.rs:831-869 | A body refused outright by anything but a retired node or an unknown error is refused to each of its callers. |
| `AggregateProofs.FailureIsUnknown` | viewstamp-driver/src/aggregate/mod.rs:831-869 | A body lost in flight, or turned away by a retired node, leaves each of its callers with an unknown outcome, and says which. |
| `AggregateProofs.KeepsInv` | viewstamp-driver/src/aggregate/mod.rs:910-1137 | Every step of every party keeps all of the aggregator's invariants. |
| `AggregatePump.PackBody` | viewstamp-driver/src/aggregate/mod.rs:941-999 | The packing loop, over the shared queue and the builder, with entries arriving and callers leaving before every pop, packs exactly the greedy body, leaves exactly the rest, and every push it makes succeeds. |
| `AggregatePump.GreedyIsMaximal` | viewstamp-driver/src/aggregate/mod.rs:941-992 | The greedy body is the part of a prefix of the queue as it grew that somebody still waits for; the next entry still waited for would take the body over the unit cap or the byte limit; an empty body means nobody is left waiting. |
| `AggregatePump.PopsAreGreedy` | viewstamp-driver/src/aggregate/mod.rs:946-992 | Under the same arrivals and cancellations, the machine's single pops add up to the greedy pass. |
| `AggregatePump.PopExactly` | viewstamp-driver/src/aggregate/mod.rs:946-992 | One pop skips its entry exactly when every caller of it has left, packs it exactly when the body including it keeps the unit cap and the byte limit, and otherwise defers it and seals the body. |
| `Budget.InflightBudget.TryAcquireMany` | viewstamp-driver/src/session/mod.rs:286-299 | Alone, a reservation succeeds exactly when both caps have room, and a failure leaves no trace. |
| `Budget.NeverOverCommitted` | viewstamp-driver/src/session/mod.rs:286-307 | With any number of threads interleaved at single atomic operations, live guards never exceed either cap and no subtraction underflows. |
| `Budget.AdmittedExactly` | viewstamp-driver/src/session/mod.rs:276-299 | Whatever other threads do between its operations, a reservation is admitted exactly when the count cap has room at its count operation and the byte cap at its byte operation, beside every share then in that counter. |
| `Budget.RoomAtTheStartIsNotEnough` | viewstamp-driver/src/session/mod.rs:276-299 | An instance: both caps have room when a reservation begins, and it is refused. |
| `Budget.TransientRefusal` | viewstamp-driver/src/session/mod.rs:276-299 | An instance: a reservation refused, and a counter over its cap, with no guard ever live. |
| `Session.WalkIsExact` | viewstamp-driver/src/session/mod.rs:546-563 | After the reap walk exactly the live entries remain, each stamped with the walk's time if it was due and with its old time if not; exactly the live due requests are collected. |
| `Session.RetransmittedOnTime` | viewstamp-driver/src/session/mod.rs:546-563 | However often the table is walked and whatever happens to other requests, a live request is collected by the first walk at or past its last sending plus the timeout, and by none before. |
| `Session.PendingTable.ReapAndCollect` | viewstamp-driver/src/session/mod.rs:546-563 | One pass drops the cancelled and stamps and collects the due. |
| `SessionProofs.Conserved` | viewstamp-driver/src/handle/mod.rs:158-207 | In every reachable state each submit is in exactly one of unreserved, being sent, queued, pending or settled, and the budget is exactly the live guards, within both caps. |
| `SessionProofs.OutcomeIsHonest` | viewstamp-driver/src/handle/mod.rs:158-207 | In every reachable state `Busy`, `DriverGone` and `TooLarge` are outcomes only of a submit that never entered the channel and was never minted; `ReplyDropped` only of one that entered; a reply only of one committed; `Retired` of one that entered exactly when its oneshot was dropped. |
| `SessionProofs.RefusalReasons` | viewstamp-driver/src/handle/mod.rs:158-207 | In every reachable state `TooLarge` is the outcome only of a body over the bound, such a body never gets further than that or `Retired`, and `DriverGone` comes only once the channel is closed. |
| `SessionProofs.CallExactly` | viewstamp-driver/src/handle/mod.rs:158-180 | A call is let on exactly when the node is not retired and the body is within the bound. |
| `SessionProofs.DequeueExactly` | viewstamp-compio/src/driver/mod.rs:698-737 | A command dequeued enters consensus exactly if the node is not retired and its caller still waits; otherwise its oneshot is dropped. |
| `SessionProofs.CancelledNeverEnters` | viewstamp-compio/src/driver/mod.rs:710-718 | Once a caller left before the driver took its command, no run mints a request for it. |
| `SessionProofs.CommitExactly` | viewstamp-driver/src/session/mod.rs:592-600 | A commit answers the submit behind it if it is still pending, and touches no other. |
| `SessionProofs.ClosesOnlyOnShutdown` | viewstamp-compio/src/driver/mod.rs:569-605 | Only a dequeued shutdown starts the teardown, only its drain closes the channel, and a retirement's drain leaves the driver running. |
| `SessionProofs.GoalsOfRetired` | viewstamp-driver/src/handle/mod.rs:285-310 | On a retired node a reconfiguration is refused as such, when called and when dequeued; otherwise a queued one enters. |
| `SubmitVerdicts.VerdictGuards` | viewstamp-driver/src/aggregate/mod.rs:831-869 | From that: an error of a submit that never entered is one the pump meets at its first poll, an error of one that entered is one it meets later, and an answer comes only of a committed body. |
| `SubmitVerdicts.RefusalMeansNeverEntered` | viewstamp-driver/src/aggregate/mod.rs:831-869 | A packed body's callers are told `Refused` only if nothing of it was ever sent, minted or committed; whatever entered and failed is told `OutcomeUnknown`. |
| `SessionProofs.NothingSurvivesTheAck` | viewstamp-compio/src/driver/mod.rs:569-605 | After the shutdown ack nothing is queued or pending, every awaiting caller is settled, and every later send is refused. |
| `SessionProofs.RetirementIsRaceFree` | viewstamp-driver/src/session/mod.rs:471-526 | From the latch on nothing enters the pending table, consensus or the executor; a submit without its answer ends `Retired`, never `ReplyDropped`. |
| `SessionProofs.RetirementFreesBudget` | viewstamp-driver/src/session/mod.rs:471-478 | Once drained and read out, only callers still sending hold budget. |
| `SessionProofs.SoleSubmitterBusy` | viewstamp-driver/src/session/mod.rs:592-600 | A lone submitter's fitting body is refused `Busy` by the budget exactly when the previous delivery still holds its guard and the two do not fit together. |
| `SessionProofs.RoomForTwoIsEnough` | viewstamp-driver/src/session/mod.rs:592-600 | With a count cap of two and room for any two bodies side by side, a lone submitter is never refused by the budget. |
| `SessionProofs.SoleSubmitterCanBeBusy` | viewstamp-driver/src/aggregate/mod.rs:844-855 | An instance of that refusal, against the comment that calls it unreachable. |
| `SessionProofs.KeepsInv` | viewstamp-compio/src/driver/mod.rs:692-737 | Every step of callers and driver keeps the submit invariants. |
| `Membership.ApplyDeltaRefines` | viewstamp-proto/src/membership/mod.rs:383-460 | On every valid slot list a delta either gives a valid successor with exactly the two sets changed as the delta says, or the exact error. |
| `Membership.DeltaKeepsSlots` | viewstamp-proto/src/membership/mod.rs:383-460 | The member a delta moves or adds gets the last slot of its new range; a promotion leaves every voter's slot as it was; any two others on one side before and after keep their order. |
| `Planner.PlanReconfiguration` | viewstamp-proto/src/reconfigure_plan/mod.rs:238-352 | The phase loops and the simulation compute the specified plan or error. |
| `Planner.ParityCore` | viewstamp-proto/src/reconfigure_plan/mod.rs:274-308 | The two-cursor loop is the parity rule. |
| `PlannerProofs.PlanIsSound` | viewstamp-proto/src/reconfigure_plan/mod.rs:204-237 | Every step of a plan is legal where taken, every configuration on the way has 1 to 64 voters and at least the smaller tolerance, the end is the target, the length is the distance. |
| `PlannerProofs.Memoryless` | viewstamp-proto/src/reconfigure_plan/mod.rs:235-237 | Re-planning after any prefix of a plan gives the rest of it. |
| `PlannerProofs.PlannerVerdict` | viewstamp-proto/src/reconfigure_plan/mod.rs:226-231 | A goal fails exactly for overlapping sets, no voters, more than 64 voters, or the node peak, with that error; the voter-peak and last-voter errors never occur. |
| `PlannerProofs.ToleranceMeans` | viewstamp-driver/src/reconfigure/mod.rs:361-367 | Fault tolerance counts exactly the crashes that leave a majority. |
| `PlannerProofs.EmptyPlanExactly` | viewstamp-driver/src/reconfigure/mod.rs:431-436 | The plan is empty exactly at the target. |
| `PlannerProofs.DueStep` | viewstamp-proto/src/reconfigure_plan/mod.rs:212-224 | Any step the phases allow, in any demotion order, is legal, keeps the floor and closes the distance by one. |
| `PlannerProofs.CandidatesAreDepartures` | viewstamp-proto/src/reconfigure_plan/mod.rs:366-395 | When a plan leads with a demotion the candidates are exactly the departing voters, each of them due. |
| `PlannerProofs.MajoritiesMeet` | viewstamp-driver/src/reconfigure/mod.rs:304-333 | Majorities on the two sides of any legal delta share a voter. |
| `Executor.PickDemotion` | viewstamp-driver/src/reconfigure/mod.rs:288-333 | The sort and scan compute the specified pick, which `ExecutorProofs.PickIsBest` characterises by majorities. |
| `Executor.RunReconfigure` | viewstamp-driver/src/reconfigure/mod.rs:352-571 | The loop, over any script of readings, takes the specified turns and ends as specified. |
| `ExecutorProofs.PickIsBest` | viewstamp-driver/src/reconfigure/mod.rs:265-287 | A demotion is picked exactly when some candidate's leaving keeps more than half of the voters left answering and unvetoed, and the pick does; among those that do, self comes last, members apparently down come first, then the smallest id; else the diagnostic names exactly the unproven voters left by the first in that order. |
| `ExecutorProofs.DemotionKeepsQuorum` | viewstamp-driver/src/reconfigure/mod.rs:481-531 | A demotion is decided only of a departing voter, due, whose successor's voters have a majority answering and unvetoed; of self only if no other departing voter's have. |
| `ExecutorProofs.DemotionExactly` | viewstamp-driver/src/reconfigure/mod.rs:481-520 | When the plan leads with a demotion, one is proposed exactly if some departing voter's leaving keeps such a majority; otherwise the turn stalls, naming voters left without proof. |
| `ExecutorProofs.FacedExactly` | viewstamp-driver/src/reconfigure/mod.rs:470-570 | A turn past its checks proposes an addition or promotion outright, a removal exactly with a proven majority of the current voters, a demotion exactly if some departing voter's leaving keeps a live majority; otherwise it stalls. |
| `ExecutorProofs.FacedIsLeast` | viewstamp-proto/src/reconfigure_plan/mod.rs:238-308 | The step a turn faces is the due one that names the smallest member. |
| `ExecutorProofs.StallMeansNoQuorum` | viewstamp-driver/src/reconfigure/mod.rs:481-557 | A turn stalls only without a proven majority of the current voters, or when no departing voter's leaving keeps a live one. |
| `ExecutorProofs.CompletionExactly` | viewstamp-driver/src/reconfigure/mod.rs:428-435 | A turn reports success exactly when the live sets are the target's. |
| `ExecutorProofs.RunSucceedsExactly` | viewstamp-driver/src/reconfigure/mod.rs:394-435 | Over whole runs: a run succeeds exactly at the first turn that reads the target, and ends there. |
| `ExecutorProofs.EndsExactly` | viewstamp-driver/src/reconfigure/mod.rs:394-470 | How a turn ends the run, in order: a target member seen and gone, named; success; a goal the planner refuses; the removal of its own node after a commit; the cap, with the last stall if any. |
| `ExecutorProofs.PreflightExactly` | viewstamp-driver/src/reconfigure/mod.rs:361-376 | A goal is refused up front exactly when it is unacknowledged, has 1 to 64 voters, and fewer crashes leave it without a majority than leave the live voters without one. |
| `ExecutorProofs.CapReportsLatestStall` | viewstamp-driver/src/reconfigure/mod.rs:379-384 | A run cut off by its cap names what the latest stall since the latest install was missing, and a bare timeout exactly when there was none. |
| `ExecutorProofs.SomeDemotionIsDecided` | viewstamp-driver/src/reconfigure/mod.rs:481-520 | An instance: two voters, one leaving, the other proven live. |
| `ExecutorProofs.RemovalKeepsQuorum` | viewstamp-driver/src/reconfigure/mod.rs:525-557 | A learner removal is decided only with more than half of the current voters proven, and never of self after a committed step. |
| `ExecutorProofs.ProposalIsDue` | viewstamp-driver/src/reconfigure/mod.rs:470-570 | Whatever a turn proposes is a step the planner could take from the live membership. |
| `ExecutorProofs.ProposalIsSafe` | viewstamp-driver/src/reconfigure/mod.rs:481-570 | Installing it closes the distance by one, keeps the tolerance floor, and majorities before and after meet. |
| `ExecutorProofs.HonestOutcome` | viewstamp-driver/src/reconfigure/mod.rs:127-160 | Of a single decision: `InvalidTarget` only before any commit; a progress report has exactly one of a non-empty current plan and a reason. `JobProofs.RepliesAreHonest` has it of every reply. |
| `ExecutorProofs.SeenThenGone` | viewstamp-driver/src/reconfigure/mod.rs:398-426 | A target member seen or staged and then absent ends the run there, named. |
| `ExecutorProofs.SeenExactly` | viewstamp-driver/src/reconfigure/mod.rs:385-408 | What the loop takes as seen of the target is exactly what was there at the start or was shown or put in by an earlier turn. |
| `ExecutorProofs.StagedAtMostOnce` | viewstamp-driver/src/reconfigure/mod.rs:349-351 | A run stages a member at most once. |
| `ExecutorProofs.NothingInstalledBeforeInvalidTarget` | viewstamp-driver/src/reconfigure/mod.rs:152-156 | `InvalidTarget` means no turn installed; after an install the run never proposes its own node's removal. |
| `ExecutorProofs.CommittedExactly` | viewstamp-driver/src/reconfigure/mod.rs:394-560 | The run counts as committed exactly if an earlier turn installed. |
| `ExecutorProofs.UndisturbedTerminates` | viewstamp-driver/src/reconfigure/mod.rs:396-570 | An undisturbed run installs at most the starting distance and never returns to a configuration. |
| `ExecutorProofs.AckExactly` | viewstamp-driver/src/reconfigure/mod.rs:1044-1053 | The acknowledgement rides exactly the decided steps that lower the tolerance. |
| `ExecutorProofs.AckLowers` | viewstamp-driver/src/reconfigure/mod.rs:1044-1053 | At any valid membership, the rule that attaches the acknowledgement to an applicable step picks exactly the steps that lower the tolerance there. |
| `ExecutorProofs.ToleranceAccounted` | viewstamp-driver/src/reconfigure/mod.rs:31-36 | Acknowledged steps minus raising promotions are the tolerance lost over an undisturbed run. |
| `ExecutorProofs.UnacknowledgedNeverLowers` | viewstamp-driver/src/reconfigure/mod.rs:361-376 | A goal past the preflight without acknowledgement asks for no less tolerance, and an undisturbed run never decides a step needing one. |
| `ExecutorProofs.ExecIsChain` | viewstamp-driver/src/reconfigure/mod.rs:396-570 | Every run is a chain of turns over its script, each deciding from the memory the last one left. |
| `Job.ReconfigureJob.Step` | viewstamp-driver/src/reconfigure/mod.rs:940-1091 | One advance: deadline, install detection, poll, delivery with its acknowledgement, tick, as specified. |
| `Job.ReconfigureJob.Propose` | viewstamp-driver/src/reconfigure/mod.rs:1034-1091 | The slot's step is carried once, with the acknowledgement the live membership calls for, and the verdict becomes the outcome as specified. |
| `Job.ReconfigureJob.Retire` | viewstamp-driver/src/reconfigure/mod.rs:1152-1160 | On retirement the job ends with its one reply, as specified. |
| `Job.ReconfigureJob.Loop` | viewstamp-driver/src/reconfigure/mod.rs:715-797 | The executor between two suspensions is the specified iteration. |
| `JobProofs.OneReplyInTime` | viewstamp-driver/src/reconfigure/mod.rs:960-1003 | Whatever it is fed, a retirement included, a job has replied exactly once by the first advance at or past its deadline, wherever it is parked. |
| `JobProofs.RepliedExactlyWhenEnded` | viewstamp-driver/src/reconfigure/mod.rs:1152-1160 | Over any feeds at all a job has one reply if it has ended and none if not, and a retirement ends it at once. |
| `JobProofs.RepliesAreHonest` | viewstamp-driver/src/reconfigure/mod.rs:971-1003 | Every reply of every life, from the executor, at the deadline or on retirement: a progress report has exactly one of a reason and a non-empty plan, that plan being the one from its membership; missing liveness is what the latest stall since the latest install found; `InvalidTarget` means no step of the job installed. |
| `JobProofs.SuccessMeansTarget` | viewstamp-driver/src/reconfigure/mod.rs:428-435 | Over every life: a job that answers `Ok` was ended by a feed whose membership has the target's sets. |
| `JobProofs.FeedSucceeds` | viewstamp-driver/src/reconfigure/mod.rs:940-1020 | A feed ends the job with success only at the target; and at the target a deadline, a retirement or any decision of the executor does. |
| `JobProofs.AdvanceAnswers` | viewstamp-driver/src/reconfigure/mod.rs:940-1091 | Every advance: the cap's answer past the deadline; the preflight's exactly at the first poll; `Backend` exactly after a fatal verdict; nothing while an install is awaited or a step posted again; otherwise the executor decides. |
| `JobProofs.InstallIsExact` | viewstamp-driver/src/reconfigure/mod.rs:1009-1020 | `Installed` is reported exactly when the job awaits a step the endpoint accepted and the live membership is that step applied to the very membership it was proposed against. |
| `JobProofs.AckRidesExactlyTheLosses` | viewstamp-driver/src/reconfigure/mod.rs:1044-1053 | Over every life, a proposal carries the acknowledgement exactly when the operator gave it and the step lowers the tolerance of the membership it is proposed against. |
| `JobProofs.AdvanceKeeps` | viewstamp-driver/src/reconfigure/mod.rs:940-1091 | Every advance keeps the job's invariant, the slot drained included, and makes at most two decisions. |
| `JobProofs.JobDecidesSafely` | viewstamp-driver/src/reconfigure/mod.rs:1034-1053 | Every decision in a job's log is the executor's: a demotion with a majority of its successor's voters answering and unvetoed, a removal with a majority of the current voters answering. |
| `JobProofs.FreshExactly` | viewstamp-driver/src/reconfigure/mod.rs:732-739 | Over every life, a proposal carried by an advance was decided in it, on its membership and probe answers, exactly when the previous one was not refused transiently; after a transient refusal the next advance before the deadline carries the same step and nothing is decided. |
| `JobProofs.FreshIsSafe` | viewstamp-driver/src/reconfigure/mod.rs:481-531 | A fresh demotion leaves a majority of its successor's voters answering and unvetoed, a fresh removal has a majority of the current voters answering. |
| `JobProofs.RepostCanLoseQuorum` | viewstamp-driver/src/reconfigure/mod.rs:732-739 | An instance from the start: a demotion refused transiently goes out again while nobody is proven alive. |
| `JobProofs.DoneExactlyAtTarget` | viewstamp-driver/src/reconfigure/mod.rs:1152-1160 | On retirement and at the deadline success means exactly that the target is reached. |
| `BlockStore.InMemoryStore.Traverse` | viewstamp-proto/src/block_store/mod.rs:357-374 | One walk marks exactly what its own resolver reaches through verified blocks. |
| `BlockStore.InMemoryStore.Gc` | viewstamp-proto/src/block_store/mod.rs:344-377 | A collection keeps exactly the held blocks some walk reaches, bytes unchanged. |
| `BlockStore.RestoreReplays` | viewstamp-proto/src/block_job.rs:427-448 | Every block fed to a restore is the one whose address was asked for, held there; it returns what the procedure returns on them, and faults only at an address whose block is absent or corrupt. |
| `BlockStore.RestoreIsCorruptionProof` | viewstamp-proto/src/state_machine.rs:136-150 | Over any damaged store a restore gives the intact state or stops at an address unverifiable there. |
| `BlockStore.RestoreJobIsAllOrNothing` | viewstamp-proto/src/block_job.rs:427-448 | The whole restore job gives the intact sessions and state together, or an address. |
| `BlockLane.BlockJobCursor.Admit` | viewstamp-proto/src/block_job.rs:352-363 | A job is admitted exactly when its id strictly follows the last one. |
| `BlockLane.KeepsOrdered` | viewstamp-proto/src/block_job.rs:340-363 | What executes is a strictly increasing subsequence of issue order, under any schedule and rebuild. |
| `BlockLane.WantedIsNeverSwept` | viewstamp-proto/src/block_job.rs:377-421 | If each collection names the generations wanted when issued, every wanted generation written, by one materialisation or by a transfer's walks, stays whole, and every one behind a clean flush survives a crash. |
| `BlockLane.TransferStoresExactly` | viewstamp-proto/src/block_job.rs:449-481 | A walk leaves its fetched block in the store and nothing else changed; the generation counts as written exactly when every block of both DAGs was there or is that one. |
| `BlockLane.BarrierFindsItsRoots` | viewstamp-proto/src/block_job.rs:394-409 | When a transfer's barrier runs both its DAGs are held whole, roots included; a clean one leaves them to any crash. |
| `BlockLane.StaleCollectionIsStopped` | viewstamp-proto/src/block_job.rs:312-326 | A collection issued before a generation would sweep it; the cursor stops the lane with the blocks held. |
| `StreamConns.ConnTable.CloseConn` | viewstamp-compio/src/stream_driver/mod.rs:1118-1147 | Closing removes the connection and redials exactly while the peer is wanted at that address. |
| `StreamConns.ReplacedExactly` | viewstamp-compio/src/stream_driver/mod.rs:1118-1147 | A lost connection is replaced, by a fresh dial to the same place, exactly when it was dialed and its peer is still wanted there; nothing else changes. |
| `StreamConns.StaleOnlyDies` | viewstamp-compio/src/stream_driver/mod.rs:1097-1117 | Between reassignments no dial to a place no longer wanted is made or renewed. |
| `StreamConns.ConnTable.AcceptSocket` | viewstamp-compio/src/stream_driver/mod.rs:649-686 | Admission evicts an oldest evictable connection at the cap, if there is one. |
| `StreamConns.ConnTable.PickEviction` | viewstamp-compio/src/stream_driver/mod.rs:665-672 | The pick is an evictable connection with the earliest deadline, or there is none. |
| `StreamConns.ConnTable.RekeyPeers` | viewstamp-compio/src/stream_driver/mod.rs:1449-1473 | A rebuild dials exactly the new or changed assignments. |
| `StreamConns.DialAll` | viewstamp-compio/src/stream_driver/mod.rs:474-477 | Startup leaves exactly one dialed connection per peer. |
| `StreamConns.RunKeepsMesh` | viewstamp-compio/src/stream_driver/mod.rs:1094-1117 | Every wanted slot is dialed after any run; with fixed membership exactly once, and at most the cap in all. |
| `StreamConns.KeepsMesh` | viewstamp-compio/src/stream_driver/mod.rs:329-340 | With fixed membership each step keeps one dial per peer under the cap. |
| `StreamConns.RekeySingleExactly` | viewstamp-compio/src/stream_driver/mod.rs:1440-1473 | A reassignment keeps one dial per peer exactly when no leftover dial already aims at a new assignment. |
| `StreamConns.FlappingSlotIsDialedTwice` | viewstamp-compio/src/stream_driver/mod.rs:1467-1468 | An instance where it does not. |
| `StreamConns.EvictionIsSafe` | viewstamp-compio/src/stream_driver/mod.rs:651-660 | Eviction takes only an accepted connection not validated, only at the cap, and one whose deadline no other such connection's precedes; it touches nothing else. |
| `StreamConns.AdmittedExactly` | viewstamp-compio/src/stream_driver/mod.rs:661-686 | A socket is admitted exactly when there is room, or the table is just full and some accepted connection is still in its handshake; it then has the whole window. |
| `StreamConns.EvictsInOrder` | viewstamp-compio/src/stream_driver/mod.rs:661-672 | Over every run with a clock that never goes back, an accepted connection in its handshake that came before the evicted one came at the same instant. |
| `StreamConns.EvictionCanBeWasted` | viewstamp-compio/src/stream_driver/mod.rs:661-686 | An instance past the cap: an eviction, and the fresh socket is dropped all the same. |
| `StreamConns.MeshCanForm` | viewstamp-compio/src/stream_driver/mod.rs:328-340 | With a cap of twice the peers a socket is admitted while fewer accepted connections are validated than there are peers. |
| `StreamConns.BackoffSchedule` | viewstamp-compio/src/stream_driver/mod.rs:1133-1145 | After `k` losses in a row the redial delay is the base doubled `k` times, up to the cap. |
| `StreamConns.ValidationRestartsSchedule` | viewstamp-compio/src/stream_driver/mod.rs:1075-1083 | After validation the next loss waits the base delay and its replacement carries twice that, up to the cap. |
| `Bridge.WriteChunk` | viewstamp-compio/src/bridge/mod.rs:169-203 | Whatever the socket does, a chunk that is over lowered the counter by exactly its length. |
| `Bridge.BudgetIsExact` | viewstamp-compio/src/stream_driver/mod.rs:1348-1369 | In every interleaving the counter is the unwritten bytes plus what is between two operations, never negative, and at most one chunk over the cap. |
| `Bridge.RefusedExactly` | viewstamp-compio/src/stream_driver/mod.rs:1348-1369 | A chunk is refused exactly when the counter read was already over the cap, never for its own length, and a refusal leaves the counter as it was. |
| `Bridge.SmallBacklogIsServed` | viewstamp-compio/src/stream_driver/mod.rs:1348-1369 | A chunk polled at or under the cap is handed to the writer, whatever its length and whatever the writer does meanwhile, unless the writer is gone. |

## Left out

- The consensus endpoint, view change, log and superblock recovery, transports and wire messages: commits, membership installs and probe answers are inputs here.
- Sockets, TLS, QUIC, tasks, wakers beyond the pump's, timers and fd release.
- The session table's block encoding and the transfer frontiers: a transfer's walk is a job that stores at most one fetched block, and its completeness is what the store then holds.
- The lane's `Holds` accounting, shutdown reports, configuration defaults, statistics and string names.
- The jitter on redial delays, and `reconcile_auth_deadlines` as one loop: its two effects are the steps `Clear` and `Lose`.
- Liveness: no claim is made that a wake is eventually delivered or a job eventually advanced.
- Corruption between a write and a collection: the lane theorem assumes stored bytes keep hashing to their key.
- 64-bit wrap-around of the budget's atomic additions.
- Accept: among equally old connections the choice is any, where the program's is that of its hash map's order.
- SoleSubmitterBusy: a reservation is one step of `Session` (`Budget` has its atomic operations), and a `Busy` from a full command channel is an input of the send.
