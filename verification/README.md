# funduq, modelled and proved

funduq relays runs between callers and agent providers. This project models its
state machines and the folds that must agree with them, and proves what they promise:

- **The broker.** Every thread of runs has one owner with an inbox and a turn queue;
  providers come and go, answer offers, report events; clocks run out. `BrokerSpec` says
  what each operation does as a function from state to state, and lists the steps that
  can happen: doors, roster changes, one owner reading one message and then looking at its
  queue, an offer's clock, a failed hand-over, the sweep, time. `BrokerInvariant` and the
  modules after it prove an invariant of every step; `BrokerTheorems` states what follows
  for every state that any sequence of steps can reach. `BrokerEffects`, `BrokerReading`
  and `BrokerJoining` say what one step does and that it does no more: each door, roster
  change and clock; each message over its owner's whole step; joining a turn.
  `Broker.RunBroker` is the broker object itself, its fields changed in place, each method
  proved to do what the function of the same meaning says.
- **The record.** `Record` models the handlers that turn a run's commands into a status,
  a numbered event log and a live stream, including writes that raise;
  `RecordRefinement` proves what the status row is then, and when it follows the broker.
- **The provider's worker.** `RuntimeSpec`, `RuntimeInvariant`, `RuntimeTheorems` and
  `Runtime.ProviderRuntime`, with `RuntimeIntake` (what it answers and
  puts out), `RuntimeLine` (who gets a free slot) and `RuntimeEndings` (who ends without a
  marker): lanes, slots, cancellation, end markers.
- **The actor chain.** `Chain` and `ChainTheorems`: verifying and building a hash-linked,
  signed chain with its rule of succession, for any injective hash.
- **Views that must agree.** `A2a`, `A2aMeaning` and `A2aReattach` (snapshot and
  increments), `Conversation` and `Turns` (the conversation rebuilt from rows that repeat
  it), `RecoverySpec`, `RecoveryTheorems` and `Recovery.Funduq` (restart, which ends in a
  reachable broker).

Names (run ids, thread ids, keys) are only ever compared, so naturals stand for them.
A `Run`, a thread's handler, a provider's handler and a lane are values held in a map
of the object that owns them; the code holds references to them, and nothing in the
model depends on the difference, since each is reached through one owner.

Where the code falls short of what it says, a lemma gives a concrete input and another
says, for all inputs, exactly when it does:

- A run's final status can lack the event that explains it: the handler notes a relayed
  `RUN_ERROR` or `RUN_FINISHED` before it stores it, so when that one write raises, the
  finish writes no event of its own (`Record.AFailureCanGoUnexplained`; exactly when:
  `Record.FinishExplainedExactlyWhen`).
- A raised status write leaves the row behind the broker for good. When it is the offer's,
  a run that its provider then finishes stays `queued` and the next start dispatches it
  again (`RecordRefinement.AFinishedRunCanStayQueued`; exactly when:
  `RecordRefinement.StatusFollowsBroker`, `RecordRefinement.FinishedStatus`,
  `RecoveryTheorems.AFinishedRunComesBackExactlyWhen`).
- A restart cut short between failing the orphans and explaining them leaves failed runs
  that no later restart explains (`RecoveryTheorems.AStartCutShortLeavesARunUnexplained`;
  exactly when: `RecoveryTheorems.ReapedRunsAreExplained`).
- The worker's docstring says an end marker is always put out; a run cancelled before its
  first step gets none (`RuntimeTheorems.ARunCanEndUnmarked`; exactly when:
  `RuntimeEndings.MarkerIsMissingExactlyWhen`).
- Interjections take no lane's slot, so executing runs can outnumber the declared limit
  (`RuntimeTheorems.TasksCanOutnumberTheLimit`; exactly when:
  `RuntimeTheorems.LimitIsPassedExactlyWhen`). Lanes cannot
  (`RuntimeTheorems.LanesStayWithinTheLimit`).
- A stream attached to a run that has already produced text can tell that text twice: the
  snapshot is read from the stored events and the queue is drained from its first unread
  one (`A2aReattach.TextCanComeTwice`; exactly when: `A2aReattach.ReattachedExactlyWhen`).

One docstring is simply not what the code does: a provider handler's says that a disconnect
empties the connection slot. No step ever empties it; what a disconnect takes away is the
agents in the serving map (`BrokerTheorems.SlotIsNeverEmptied`).

## Model

| member | source | states |
|---|---|---|
| BrokerTheorems.NothingIsStuck | funduq/funduq/broker.py:465-574 | in every reachable state a tracked run has a live owner and is unread, behind an unsettled head, an idle head with no server or no room or someone about to look, under an open verdict with its clock due or its lapse posted, or held with its agent served or its end posted |
| BrokerTheorems.CapacityIsConserved | funduq/funduq/broker.py:705-741 | a provider's in-flight count is exactly the number of tracked runs reserved on it, so the guard in release never saves it |
| BrokerTheorems.LimitIsRespected | funduq/funduq/broker.py:199-201 | any step that raises a provider's count leaves it within the limit then declared |
| BrokerTheorems.OneTurnPerThread | funduq/funduq/broker.py:694-741 | at most one run of a thread that is not an interjection is offered or held, and it heads the queue |
| BrokerTheorems.OffersFollowArrivals | funduq/funduq/broker.py:507-517 | ordinary runs of a thread are offered in the order they were enqueued, whatever interjections are inserted or pulled out |
| BrokerTheorems.RecordsAreWellTold | funduq/funduq/broker.py:519-690 | every record is a beginning of, or a complete, `Offer? (Fail or RequestCancel)` or `Offer Claim (Relay or RequestCancel)* (FinishStream or Fail)` followed by the end of the stream |
| BrokerTheorems.AtMostOnce | funduq/funduq/broker.py:800-825 | such a record offers once, claims once, and ends its stream only as its last entry |
| BrokerTheorems.HistoryStands | funduq/funduq/broker.py:815-839 | a step only continues records, and never touches a finished run again: a run is settled once |
| BrokerTheorems.OnlyTheHolderSpeaks | funduq/funduq/broker.py:576-629 | what is relayed is exactly, in order, what the claiming key said behind its accepted verdict, as far as it was read; nobody else is among it |
| BrokerTheorems.NothingSaidIsLost | funduq/funduq/broker.py:428-463 | while a run is tracked, what was posted about it is what was heard followed by what is still in the inbox |
| BrokerTheorems.CancelIsNeverLost | funduq/funduq/broker.py:448-454 | a requested cancel waits on an open verdict, is on the record, or is in the inbox with it or with the run's end |
| BrokerTheorems.CancelOutranksDecline | funduq/funduq/broker.py:519-574 | for every reachable state, every step and every run with a cancel waiting on its verdict: the cancel still waits; or the run is over and its last word is the cancel, unless the owner read its provider's refusal or funduq's own end of it; or it was taken, and the cancel is on its record or its end is posted |
| BrokerCancel.OwnerDecides | funduq/funduq/broker.py:631-690 | the same for one owner's step, whichever message it reads |
| BrokerTheorems.OneMarkPerRun | funduq/funduq/broker.py:886-903 | every counter counts the marks of its kind, and no run makes two marks of any kind against anybody |
| BrokerTheorems.MarksAreEarned | funduq/funduq/broker.py:645-692 | each mark stands for what its run's record says: a decline heard from that key, an offer that ran out, a run that key took and funduq had to end, a run that key took |
| BrokerTheorems.LeavingARunIsAlwaysMarked | funduq/funduq/broker.py:597-618 | a provider that took a run funduq then had to end, other than for a malformed event, has been marked for it; one that finished it has no `abandoned` for it |
| BrokerTheorems.ToleranceWithdraws | funduq/funduq/broker.py:886-895 | a step in which a counter reaches the tolerance leaves no agent served by that key |
| BrokerTheorems.SlotIsNeverEmptied | funduq/funduq/broker.py:846-880 | no step empties a provider's connection slot, and an agent has a server exactly while it is listed as served |
| BrokerTheorems.GivenUpInTime | funduq/funduq/broker.py:352-366 | a run left unoffered and unserved has its end posted no later than its reference time plus twice the timeout |
| BrokerTheorems.SweepPicks | funduq/funduq/broker.py:927-944 | a sweep picks exactly the runs neither offered, held nor served whose reference time is a timeout ago |
| BrokerTheorems.WithdrawnOnlyAtTolerance | funduq/funduq/broker.py:886-903 | whatever an owner reads, an agent loses its server only because a counter of that server was raised in that step and has reached the tolerance |
| BrokerTheorems.OffersGoToTheServer | funduq/funduq/broker.py:705-741 | a run newly offered in a step was offered to the connection serving its agent when the step began |
| BrokerEffects.DoorsPostExactly | funduq/funduq/broker.py:428-461 | every door, on a tracked run: the one message it stands for is the last in the owner's inbox, a cancel is also noted at once, and no other run, inbox, queue, provider or record changes; on any other run nothing happens |
| BrokerEffects.EnqueueTracksExactly | funduq/funduq/broker.py:376-417 | a run is refused exactly while the broker is not running; otherwise it is tracked unoffered with an empty record, stamped with the time, last in its thread's inbox, and nothing else changes |
| BrokerEffects.ClockPostsExactly | funduq/funduq/broker.py:757-761 | an offer's clock posts the lapse of the offer it was started for, once, and nothing else |
| BrokerEffects.RegisteredIsServed | funduq/funduq/broker.py:846-857 | after a registration each agent is served by the connection last given for it, whose limit is the one in force, and is no longer unserved |
| BrokerEffects.RegisterChangesNothingElse | funduq/funduq/broker.py:846-857 | agents and keys outside the mapping stay as they were, no provider's count or marks change, and each owner gets a poke for every mention of its agent |
| BrokerEffects.UnregisterLeavesExactly | funduq/funduq/broker.py:868-880 | exactly the listed agents lose their server, unserved from now; in each inbox the end of exactly the runs held for them is posted, and otherwise only pokes |
| BrokerEffects.SweepPostsExactly | funduq/funduq/broker.py:352-366 | one pass of the sweep posts the end of exactly the overdue runs, wakes every owner behind it, and changes nothing else but its own clock |
| BrokerReading.CancelIsRead | funduq/funduq/broker.py:631-643 | over the owner's whole step on a cancel: a run under an open verdict waits with the cancel noted, a held one has the cancel newly on its record and stays held, any other is over with the cancel as its last word; nobody is marked |
| BrokerReading.LapseIsRead | funduq/funduq/broker.py:659-690 | on a lapse: of the offer that is out, the run is over, cancelled if that was asked for and unanswered otherwise, and its provider gains exactly one `unanswered` mark; of any other offer, nothing |
| BrokerReading.EndIsRead | funduq/funduq/broker.py:597-618 | on funduq's own end: it is the run's last word, and a provider that took the run and was not yet marked for it gains exactly one `abandoned` mark |
| BrokerReading.UndeliveredIsRead | funduq/funduq/broker.py:645-657 | on the host's word that a run is undelivered: its holder gains exactly one `undeliverable` mark unless marked for it before, and the run stays as it was |
| BrokerReading.ReportIsRead | funduq/funduq/broker.py:576-629 | on a provider's word: the holder's goes on the record unchanged; a malformed event is followed by the failure that ends the run; the end of the stream ends it; anybody else's changes nothing |
| BrokerReading.StrayVerdictIsRead | funduq/funduq/broker.py:519-529 | on a verdict with no open offer, or from somebody the run was not offered to: nothing changes |
| BrokerReading.RefusalIsRead | funduq/funduq/broker.py:530-557 | on the provider's refusal or decline: the run is over with the refusal's reason, or cancelled if that was asked for, or declined; a decline that decides it gains exactly one `misdeclared` mark exactly when the provider had room without this run |
| BrokerJoining.JoinersAreReleased | funduq/funduq/broker.py:558-574 | on an accepted turn whose connection still serves: the claim, and the cancel if asked for, are on its record; every queued run that asked to join it is, in queue order, now offered beside it as an interjection, or over for its input, or found no room and stands right behind it, the last such first; the offers come in queue order, the rest of the queue keeps its order and no other run is touched |
| BrokerJoining.LateAcceptanceIsRead | funduq/funduq/broker.py:558-570 | on an accepted turn whose connection no longer serves: the claim is on its record and no cancel yet, nobody is marked yet, and funduq's own end of it, for the provider's leaving, is in the inbox |
| BrokerJoining.JoinerIsTaken | funduq/funduq/broker.py:558-574 | on an accepted joining run whose connection still serves: the claim, and the cancel if asked for, are on its record, and that is all |
| BrokerJoining.LateJoinerIsLetIn | funduq/funduq/broker.py:507-517 | a run that comes in addressed to the head of its thread, already taken, is offered beside it in the same step, or over for its input, or finds no room and stands right behind it; no other run is touched |
| BrokerJoining.NewcomerWaits | funduq/funduq/broker.py:507-517 | any other run that comes in behind a turn offered or taken goes to the back of the queue, and nothing else happens |
| BrokerTheorems.StepReaches | funduq/funduq/broker.py:490-505 | reachable states are closed under every enabled step |
| BrokerTheorems.ReachableHolds | funduq/funduq/broker.py:301-335 | the invariant holds in every reachable state |
| BrokerSystem.StepKeeps | funduq/funduq/broker.py:465-505 | every enabled step keeps the invariant |
| BrokerOwner.OwnerStepKeeps | funduq/funduq/broker.py:465-488 | one owner reading one message, advancing and leaving or waiting keeps the invariant |
| BrokerHistory.StepOnward | funduq/funduq/broker.py:705-839 | every step continues records, leaves finished runs alone, respects limits and applies the tolerance |
| BrokerConduct.StepConducts | funduq/funduq/broker.py:774-788 | every step keeps marks earned and abandonment marked |
| Broker.RunBroker.constructor | funduq/funduq/broker.py:304-333 | a new broker is the unused one, which is reachable |
| Broker.RunBroker.Perform | funduq/funduq/broker.py:301-366 | the object takes any enabled step exactly as the step system does |
| Broker.RunBroker.PerformAll | funduq/funduq/broker.py:301-366 | and any legal sequence of them, staying reachable, so every result about reachable brokers holds of the object |
| Broker.RunBroker.PokeThreads | funduq/funduq/broker.py:921-923 | every owner is told to look again |
| Broker.RunBroker.PokeThreadsOf | funduq/funduq/broker.py:882-884 | the owners bound to one agent are told to look again |
| Broker.RunBroker.RegisterProvider | funduq/funduq/broker.py:846-857 | each agent served by its new connection, the count kept and the limit redeclared, the owners and the sweep told |
| Broker.RunBroker.TakeOutOfService | funduq/funduq/broker.py:868-880 | one agent unserved from now, and the end of every run held for it posted |
| Broker.RunBroker.UnregisterProvider | funduq/funduq/broker.py:868-880 | the same for each agent in order |
| Broker.RunBroker.ReleaseInterjectionsOf | funduq/funduq/broker.py:763-772 | every queued run addressed to the claimed head is pulled out and offered, in order |
| Broker.RunBroker.AdvanceThread | funduq/funduq/broker.py:694-703 | settled heads are dropped, and an idle head is offered |
| Broker.RunBroker.ExpireQueued | funduq/funduq/broker.py:927-944 | the end of every run given up on is posted, and their ids returned in order |
| Record.Keeper.KeepRecord | funduq/funduq/handlers.py:140-149 | whatever a run's record, whichever of its writes raise and whatever log it was handed with, the handlers leave the rows the replay says |
| Record.LastSeq | funduq/funduq/repo.py:845-850 | no number in a log is above it |
| Record.StreamIsTheLog | funduq/funduq/handlers.py:51-137 | over any record and whichever writes raise, the live stream is exactly the events stored since the run was handed over, and all numbers rise |
| Record.LogIsWhatWasReported | funduq/funduq/handlers.py:51-77 | over any record with no last word yet and whichever writes raise, what is in the log since hand-over is exactly the well-formed events the provider reported whose write committed, unchanged and in order |
| Record.LastWordIsReported | funduq/funduq/handlers.py:80-137 | funduq's own end adds one RUN_ERROR with its code and the message, or else the code's text; the end of the stream adds one only when the run fails and it relayed none; when that write raises, nothing |
| Record.RelayExplained | funduq/funduq/handlers.py:69-77 | flags and log stay in step exactly unless the write of the first RUN_ERROR or RUN_FINISHED raises |
| Record.OthersExplained | funduq/funduq/handlers.py:80-137 | every other write may raise and a final status still has its event |
| Record.FinalStatusIsExplained | funduq/funduq/handlers.py:39-137 | over any record whose relayed terminal events were written, a failed run has a RUN_ERROR in its log and a completed one a RUN_FINISHED |
| Record.FlagsAndLog | funduq/funduq/handlers.py:51-77 | over any record with no last word yet, the flags are set exactly for what was relayed; the log holds a RUN_ERROR, or a RUN_FINISHED, exactly when it held one before or one relayed was written |
| Record.FinishExplainedExactlyWhen | funduq/funduq/handlers.py:80-103 | a run that ends failed has a RUN_ERROR in its log exactly when it relayed none, one it relayed was written, or there was one before; one that ends completed has its RUN_FINISHED exactly when one was written or was there before |
| Record.AFailureCanGoUnexplained | funduq/funduq/handlers.py:69-95 | a concrete record that leaves a failed run with no RUN_ERROR |
| RecordRefinement.StatusFollowsBroker | funduq/funduq/handlers.py:39-137 | a tracked run's row, for any set of raised writes: queued, offering, running or cancelling by how far the committed writes got it; it is where the broker has the run exactly when the offer's, the claim's and some recorded cancel's write committed; and exactly when a status write other than a repeated cancelling was refused |
| RecordRefinement.HeldIsAsWritten | funduq/funduq/handlers.py:39-48 | while held: queued if the offer's write raised, else offering if the claim's did, else cancelling if a cancel's committed, else running |
| RecordRefinement.FinishedStatus | funduq/funduq/repo.py:595-644 | a finished run's row, for any set of raised writes: what its last word says exactly when that was written, and for completed the offer and the claim were too; otherwise it is left where it stood, not terminal |
| RecordRefinement.AFinishedRunCanStayQueued | funduq/funduq/handlers.py:39-103 | a concrete run that its provider finished and whose row stays queued, with the RUN_FINISHED in its log |
| RuntimeTheorems.LaneIsNeverStranded | funduq-provider-sdk/funduq_provider_sdk/runtime.py:155-200 | every lane is running its active run, or parked exactly once with work and no active run |
| RuntimeTheorems.SlotsAreNeverWasted | funduq-provider-sdk/funduq_provider_sdk/runtime.py:178-198 | nobody waits for a slot while one is free: a waiting run is behind its lane's active run or every slot is taken |
| RuntimeTheorems.LanesStayWithinTheLimit | funduq-provider-sdk/funduq_provider_sdk/runtime.py:149-174 | no more lanes have an active run than the declared limit |
| RuntimeTheorems.LimitIsPassedExactlyWhen | funduq-provider-sdk/funduq_provider_sdk/runtime.py:81-92 | a step puts the executing runs past the limit exactly when it delivers, to a running worker with every slot taken and room in its queue, an interjection its agent takes on the active run it addresses |
| RuntimeIntake.IntakeIsTheVerdict | funduq-provider-sdk/funduq_provider_sdk/runtime.py:74-111 | in every state that keeps the invariant and for every unknown run: no room when closed; refused, by name, when it asks to join its lane's active run and the agent takes no interjections; no room when every slot is taken and the queue is full; taken otherwise; it is known afterwards exactly when the answer is taken, in its lane or beside the run it joins, and any other answer leaves the worker unchanged |
| RuntimeIntake.QueueGrowsWithinBounds | funduq-provider-sdk/funduq_provider_sdk/runtime.py:101-111 | in no step do the runs waiting grow past the declared queue, but by a delivery that found a slot free |
| RuntimeIntake.OutputIsWhatWasSaid | funduq-provider-sdk/funduq_provider_sdk/runtime.py:202-215 | a step puts out the event an agent said, unchanged, or the end of the run that ended, and nothing else |
| RuntimeIntake.OutputOverARun | funduq-provider-sdk/funduq_provider_sdk/runtime.py:202-215 | over any run of a worker the output is everything its steps put out, in order |
| RuntimeIntake.OpenExactlyWhen | funduq-provider-sdk/funduq_provider_sdk/runtime.py:124-136 | only starting opens intake and only closing shuts it; closing cancels every executing run if asked and changes nothing else |
| RuntimeLine.NoParkedLaneIsOvertaken | funduq-provider-sdk/funduq_provider_sdk/runtime.py:166-198 | in any step the lanes that leave the line for a slot are exactly its first n, for good; the others keep their places; the turns started are the own lane's and then those of the lanes that left, in the order they stood |
| RuntimeLine.KickTakesTheOldest | funduq-provider-sdk/funduq_provider_sdk/runtime.py:178-185 | free slots go to the lanes at the front of the line, each taking its first run that was not cancelled |
| RuntimeTheorems.EveryRunIsAccountedFor | funduq-provider-sdk/funduq_provider_sdk/runtime.py:93-122 | queued ids are exactly those waiting and not cancelled; every run taken is queued, executing or executed, or cancelled while it waited, and only one of these |
| RuntimeTheorems.TurnsStartInOrder | funduq-provider-sdk/funduq_provider_sdk/runtime.py:155-176 | a lane's turns start in the order they were taken, less those cancelled while they waited |
| RuntimeTheorems.CancelledWhileQueuedNeverRuns | funduq-provider-sdk/funduq_provider_sdk/runtime.py:113-122 | such a run is ended at once and never executes, whatever happens next |
| RuntimeTheorems.NothingFollowsAnEnd | funduq-provider-sdk/funduq_provider_sdk/runtime.py:202-215 | nothing is put out for a run after its end marker, a second marker included |
| RuntimeEndings.MarkerIsMissingExactlyWhen | funduq-provider-sdk/funduq_provider_sdk/runtime.py:202-215 | over any run of a worker: a run whose task is gone lacks its end marker exactly when it was cancelled before its first step, or took a lane's turn and its stream never opened |
| RuntimeEndings.CancelledUnbegunIsNeverMarked | funduq-provider-sdk/funduq_provider_sdk/runtime.py:113-118 | a run cancelled before its task's first step never gets an end marker, whatever happens next |
| RuntimeEndings.BegunIsAlwaysMarked | funduq-provider-sdk/funduq_provider_sdk/runtime.py:206-215 | a run whose stream has begun, cancelled or not, has its marker by the time its task is gone |
| RuntimeEndings.StepTasks | funduq-provider-sdk/funduq_provider_sdk/runtime.py:187-200 | what any step may do to any run's task |
| RuntimeTheorems.ARunCanEndUnmarked | funduq-provider-sdk/funduq_provider_sdk/runtime.py:202-215 | a concrete run that is over without one |
| RuntimeTheorems.TasksCanOutnumberTheLimit | funduq-provider-sdk/funduq_provider_sdk/runtime.py:81-92 | a concrete worker executing two runs with a limit of one |
| RuntimeTheorems.StepKeeps | funduq-provider-sdk/funduq_provider_sdk/runtime.py:74-215 | every step keeps the worker's invariant |
| RuntimeInvariant.KickParkedKeeps | funduq-provider-sdk/funduq_provider_sdk/runtime.py:178-185 | handing free slots to parked lanes restores the whole invariant: no lane parked while a slot is free |
| RuntimeSpec.LaneNext | funduq-provider-sdk/funduq_provider_sdk/runtime.py:155-176 | a lane advanced while a slot is free is never parked, which is why handing out slots ends |
| Runtime.ProviderRuntime.Deliver | funduq-provider-sdk/funduq_provider_sdk/runtime.py:74-111 | the object's answer is that verdict, a run answered for is taken exactly when the answer says so, and otherwise the object is unchanged |
| Runtime.ProviderRuntime.AdvanceLane | funduq-provider-sdk/funduq_provider_sdk/runtime.py:155-176 | dropped runs are discarded, then the lane starts its next run, parks or retires |
| Runtime.ProviderRuntime.KickParkedLanes | funduq-provider-sdk/funduq_provider_sdk/runtime.py:178-185 | free slots go to parked lanes, oldest first |
| Runtime.ProviderRuntime.Close | funduq-provider-sdk/funduq_provider_sdk/runtime.py:131-136 | no more intake, and every executing run cancelled if asked |
| Runtime.ProviderRuntime.Perform | funduq-provider-sdk/funduq_provider_sdk/runtime.py:35-215 | the object takes any enabled step exactly as the step system does |
| Runtime.ProviderRuntime.PerformAll | funduq-provider-sdk/funduq_provider_sdk/runtime.py:35-215 | and any legal sequence of them, staying reachable, so every result about reachable workers holds of the object |
| Chain.VerifyChain | funduq-contract/funduq_contract/chain.py:125-181 | accepts exactly the accepted chains, with their hops; otherwise names the first wrong hop, what is wrong with it, and that everything before it was right |
| ChainTheorems.TokenReadsExactlyWhen | funduq-contract/funduq_contract/chain.py:134-149 | one token reads exactly when it is well formed throughout, admissible and signed by the key it names; the hop then says who it names, what it links to and whom it dispatches |
| ChainTheorems.InadmissibleSpoilsTheChain | funduq-contract/funduq_contract/chain.py:146-149 | no chain with a token nobody signed for, or that the decoder turns away, is accepted |
| ChainTheorems.SharedTokenSharedPast | funduq-contract/funduq_contract/chain.py:151-155 | a token two accepted chains share stands at the same place in both, with the same past |
| ChainTheorems.ChainIsFixedByItsTail | funduq-contract/funduq_contract/chain.py:125-181 | two accepted chains with the same last token are the same chain |
| ChainTheorems.OnlyPrefixesSurvive | funduq-contract/funduq_contract/chain.py:13-14 | of an accepted chain's tokens the only accepted chains are its prefixes: nothing left out, repeated, reordered or spliced |
| ChainTheorems.PrefixIsAccepted | funduq-contract/funduq_contract/chain.py:134-181 | every non-empty prefix of an accepted chain is accepted |
| ChainTheorems.LosingTheHeadIsCaught | funduq-contract/funduq_contract/chain.py:151-155 | dropping a non-empty proper prefix is refused at the first hop, for its link |
| ChainTheorems.OneMoreHop | funduq-contract/funduq_contract/chain.py:151-179 | exactly when one more token keeps a chain accepted |
| ChainTheorems.ExtendAcceptedExactlyWhen | funduq-contract/funduq_contract/chain.py:111-115 | a key can extend exactly when the last hop is not a dispatch or names that key |
| ChainTheorems.DispatchAcceptedExactlyWhen | funduq-contract/funduq_contract/chain.py:118-122 | a key can dispatch exactly when the last hop is not a dispatch, names that key, or was signed by it |
| ChainTheorems.AfterADispatch | funduq-contract/funduq_contract/chain.py:157-176 | after a dispatch come re-dispatches by the same witness and then the party last named, or the chain ends |
| ChainTheorems.BuiltAcceptedExactlyWhenLawful | funduq-contract/funduq_contract/chain.py:88-122 | what the builders make is accepted exactly when every act obeys the rule of succession |
| ChainTheorems.AcceptedChainsAreBuilt | funduq-contract/funduq_contract/chain.py:88-122 | an accepted chain of honestly signed tokens that opens with no dispatch was built by lawful acts |
| A2a.BuildTask | funduq/funduq/protocols/a2a_translate.py:221-246 | one artifact per message id, in order of first appearance, with all its text in order; what A2A has no words for kept aside in order |
| A2a.IdsAreDistinct | funduq/funduq/protocols/a2a_translate.py:221-246 | no artifact id twice |
| A2aMeaning.EventInSnapshot | funduq/funduq/protocols/a2a_translate.py:221-229 | each event of a run adds its text to its own message and no other if it is text, is kept aside if it neither is text nor moves the status, and does nothing else |
| A2aMeaning.ArtifactExactlyWhenTold | funduq/funduq/protocols/a2a_translate.py:221-229 | there is an artifact for an id exactly when some text event belongs to it |
| A2a.Stream | funduq/funduq/protocols/a2a_translate.py:120-158 | the updates of a stream opened on a snapshot, whose artifacts count as opened |
| A2aMeaning.StreamTellsEachEvent | funduq/funduq/protocols/a2a_translate.py:113-158 | each event is one update: the status it moves to; its text under its message, appended exactly if that was open at the start or told since; or itself, carried |
| A2a.SnapshotPlusIncrements | funduq/funduq/protocols/a2a_translate.py:113-158 | for every split of the events, the snapshot of the first part plus the increments of the rest is the snapshot of the whole: ids, order and text |
| A2a.AppendExactlyWhenHeld | funduq/funduq/protocols/a2a_translate.py:146-156 | an increment says append exactly when the receiver already holds the artifact |
| A2a.OverflowPlusCarried | funduq/funduq/protocols/a2a_translate.py:228-229 | the unmapped events of the snapshot plus those the increments carry are those of the whole |
| A2aReattach.Reattach | funduq/funduq/protocols/a2a.py:215-242 | a snapshot of the first n events, then the updates of a queue whose first unread item is the mth: the receiver holds the artifacts of the one followed by the other |
| A2aReattach.ReattachedExactlyWhen | funduq/funduq/protocols/a2a.py:190-242 | that is the later snapshot exactly when the events told twice (m up to n) carry no text, or the events left out (n up to m) carry none and open nothing that is not opened next anyway |
| A2aReattach.TextCanComeTwice | funduq/funduq/protocols/a2a.py:237-242 | a concrete run whose text reaches the receiver twice |
| Conversation.TellRun | funduq/funduq/repo.py:537-540 | each message of one run kept the first time its id is met |
| Conversation.BuildConversation | funduq/funduq/repo.py:529-541 | each message told once, under the first run that told it, in order |
| Conversation.IdsAreDistinct | funduq/funduq/repo.py:529-541 | no id twice |
| Conversation.AttributedToTheFirst | funduq/funduq/repo.py:529-541 | a message stands under the run that told it first |
| Conversation.ConversationOnlyExtends | funduq/funduq/repo.py:529-541 | as runs are appended the conversation only grows at its end |
| Turns.HasDuplicate | funduq/funduq/doors.py:242-244 | whether two messages of one input carry one id |
| Turns.OpenTurn | funduq/funduq/protocols/a2a.py:395-399 | a new run's input is the completed runs' conversation and the one message, refused exactly when its id is in that conversation |
| Turns.OpeningGivesTheInput | funduq/funduq/protocols/a2a.py:395-399 | on the rows a turn finds, those of runs that did not complete included, opening it gives exactly its input, refused exactly when a turn that had completed told a message of that id |
| Turns.InputIsFromCompletedTurns | funduq/funduq/protocols/a2a.py:395-399 | no message is in a turn's input but its own and those that turns completed before it told |
| Turns.ConversationIsWhatWasNew | funduq/funduq/repo.py:529-541 | by induction over all turns, whichever had completed when each was opened, read over any turns that include those they repeat: the conversation is each turn's own message and, if it completed, its replies, each told once where first told |
| Turns.ACompletedTurnAddsItself | funduq/funduq/protocols/a2a.py:395-399 | a turn opened after its predecessors ended adds exactly its message and then its unseen replies, under its own run |
| Turns.TaskMessages | funduq/funduq/core.py:737-748 | the messages that first appear in a lineage's runs |
| Turns.TaskMessagesAreItsOwn | funduq/funduq/core.py:737-748 | each is what opened one of the lineage's own turns, or a reply of one that completed |
| Turns.TaskMessagesMissNone | funduq/funduq/core.py:737-748 | and none is missing: whatever one of the lineage's turns told that nobody had told before it is among them |
| Recovery.Funduq.Start | funduq/funduq/core.py:352-371 | the first start reaps, explains, starts dispatch and takes back; a later one does nothing |
| Recovery.Funduq.FailOrphanedRuns | funduq/funduq/repo.py:790-808 | every row the previous process was holding is failed, no other is touched, and their ids are returned |
| Recovery.Funduq.CloseWithTerminalEvent | funduq/funduq/handlers.py:152-164 | through the broker if it tracks the run; otherwise a RUN_ERROR numbered past the log, unless the log has one |
| Recovery.Funduq.RecoverQueued | funduq/funduq/core.py:373-405 | every waiting row in turn, then the lost ones explained |
| RecoverySpec.QueuedRuns | funduq/funduq/repo.py:811-818 | exactly the queued rows, oldest first, ties by id |
| RecoveryTheorems.EveryRunIsOverOrTracked | funduq/funduq/core.py:352-411 | from whatever rows there are, after a start every run is over, or queued and tracked; what was over is untouched |
| RecoveryTheorems.NothingElseIsTracked | funduq/funduq/core.py:373-402 | the broker tracks no run without a row |
| RecoveryTheorems.ReapedRunsAreExplained | funduq/funduq/core.py:357-361 | every reaped orphan is failed with a RUN_ERROR; a failed run lacks one exactly when it was failed before this start and lacked one then |
| RecoveryTheorems.ReapedRunsSayWhy | funduq/funduq/core.py:357-361 | what a start adds to a log, for every row: an orphan without a RUN_ERROR gains one that names the restart, an interjection that lost its target one that names that, numbered next; no other log changes |
| RecoveryTheorems.TakenBackAsStored | funduq/funduq/core.py:378-402 | a run taken back is tracked as its row has it: thread, agent, target and input, unoffered |
| RecoveryTheorems.TakenBackInOrder | funduq/funduq/core.py:373-402 | recovered runs are handed over oldest first, and each thread's inbox holds exactly its own in that order |
| RecoveryTheorems.InterjectionsKeepTheirTargets | funduq/funduq/core.py:382-386 | a queued run is taken back exactly when it joins nobody or an older run that was taken back |
| RecoveryTheorems.AFinishedRunComesBackExactlyWhen | funduq/funduq/core.py:373-402 | a run its provider finished, and said so, is taken back by the next start and dispatched again exactly when the write of its offer had raised |
| RecoveryTheorems.TheBrokerIsReachable | funduq/funduq/core.py:370-371 | the recovered broker is a reachable one, so every broker result holds of it |
| RecoveryTheorems.AStartCutShortLeavesARunUnexplained | funduq/funduq/core.py:357-361 | a concrete row a start cut short leaves failed and unexplained for good |

## Left out

- Interleaving inside one owner's step: one message with the advance after it is one step; in the code a database write may suspend it, and doors, roster changes and clocks may run there. The room check and the increment are in one await-free segment, as in the model.
- Run ids are assumed fresh when a run is enqueued, and a run a worker took is assumed not to be delivered to it again; ids are minted by funduq and a run is offered at most once (`BrokerTheorems.AtMostOnce`).
- A turn is assumed to see every completion an earlier turn of its thread saw (`Turns.OpeningGivesTheInput`, `Turns.InputIsFromCompletedTurns`); a completed run stays completed.
- The sweep is assumed punctual: it runs at the latest when its wait, the unserved timeout, is over. `BrokerTheorems.GivenUpInTime` rests on this.
- funduq's own push carries only `Fail`, as every call of it in the code does.
- A2a.SnapshotPlusIncrements: speaks of artifacts and carried events, not of the streamed state, because a run that finishes with unanswered tool calls is `completed` on the stream and `input-required` in the snapshot.
- Stopping the broker and closing funduq; enqueueing while the broker is not running is modelled.
- The refusal of a second subscriber to a live stream.
- Ed25519, JWT encoding, SHA-256: an injective hash and ideal signatures stand for them; registered JWT claims are one flag.
- SQL queries, sessions and migrations: tables are maps, `ORDER BY` is a sorted list, a commit happens entirely or not at all.
- Validation by AG-UI's and A2A's own models: one flag per event or input.
- Task plumbing of asyncio, logging, change subscribers, forget listeners.
- Key handling (KYOK), tokens, the connect handshake, tickets, rosters, agent cards.
- Folding a run's events into replies, pauses, resolution proofs, props: a run's replies are an arbitrary list of messages.
- Lanes, runs and handlers as shared references: they are values in their owner's map.
