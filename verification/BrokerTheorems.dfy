/** What the broker promises, over every sequence of steps that can happen to it. */
module BrokerTheorems {
  import opened Vocabulary
  import opened BrokerSpec
  import opened BrokerInvariant
  import opened BrokerNoise
  import opened BrokerSteps
  import opened BrokerOwner
  import opened BrokerSystem
  import opened BrokerHistory
  import opened BrokerConduct
  import opened BrokerCancel

  /** Some legal sequence of steps leads from an unused broker to `s`. */
  ghost predicate Reachable(s: State) {
    exists now, timeout, tolerance, steps ::
      0 < timeout && Legal(Init(now, timeout, tolerance), steps) && s == Exec(Init(now, timeout, tolerance), steps)
  }

  lemma ReachableHolds(s: State)
    requires Reachable(s)
    ensures Inv(s, {}, Nobody)
  {
    hide Inv;
    var now, timeout, tolerance, steps :|
      0 < timeout && Legal(Init(now, timeout, tolerance), steps) && s == Exec(Init(now, timeout, tolerance), steps);
    AlwaysHolds(now, timeout, tolerance, steps);
  }

  lemma {:induction false} OneMoreStep(s: State, steps: seq<Step>, e: Step)
    requires Legal(s, steps) && Enabled(Exec(s, steps), e)
    ensures Legal(s, steps + [e]) && Exec(s, steps + [e]) == Apply(Exec(s, steps), e)
    decreases |steps|
  {
    hide Apply, Enabled;
    if steps == [] {
      assert [e][1..] == [] && Legal(Apply(s, e), []);
      assert steps + [e] == [e];
    } else {
      OneMoreStep(Apply(s, steps[0]), steps[1..], e);
      assert (steps + [e])[0] == steps[0] && (steps + [e])[1..] == steps[1..] + [e];
    }
  }

  lemma StepReaches(s: State, e: Step)
    requires Reachable(s) && Enabled(s, e)
    ensures Reachable(Apply(s, e))
  {
    hide Apply, Enabled;
    var now, timeout, tolerance, steps :|
      0 < timeout && Legal(Init(now, timeout, tolerance), steps) && s == Exec(Init(now, timeout, tolerance), steps);
    OneMoreStep(Init(now, timeout, tolerance), steps, e);
    assert Legal(Init(now, timeout, tolerance), steps + [e]);
  }

  lemma InitIsReachable(now: int, timeout: int, tolerance: Option<int>)
    requires 0 < timeout
    ensures Reachable(Init(now, timeout, tolerance))
  {
    var init := Init(now, timeout, tolerance);
    assert Legal(init, []) && Exec(init, []) == init;
  }

  // ---- nothing is silently stuck ------------------------------------------------------

  /** What a tracked run can be waiting for. */
  predicate Moving(s: State, r: RunId, run: Run, h: ThreadHandler) {
    || Queued(r) in h.inbox
    || (r in h.queue && h.queue[0] != r && h.queue[0] in s.runs)
    || (h.queue != [] && h.queue[0] == r && Idle(run) && (!CanOffer(s, run.agent) || h.inbox != [] || s.workToDo))
    || (run.verdictOpen && (run.clockDue || OfferLapsed(r, run.offerId) in h.inbox))
    || (run.claimedBy.Some? && (run.agent in s.serving || FailIn(h.inbox, r)))
  }

  /** Every tracked run has a live owner, and is unread, behind a head that is not
      over, at the head with no server or no room or someone about to look, under an
      open verdict with its clock running or its lapse posted, or held by a provider
      whose agent is served or whose leaving is already posted. */
  lemma NothingIsStuck(s: State, r: RunId)
    requires Reachable(s) && r in s.runs
    ensures s.runs[r].thread in s.threads && Moving(s, r, s.runs[r], s.threads[s.runs[r].thread])
  {
    ReachableHolds(s);
    var t := s.runs[r].thread;
    InvRun(s, {}, Nobody, r);
    InvThread(s, {}, Nobody, t);
    assert Awake(s, t);
  }

  // ---- capacity --------------------------------------------------------------------------

  /** A provider's count is exactly the tracked runs reserved on it, so giving a place
      back never finds none to give. */
  lemma CapacityIsConserved(s: State, k: Key)
    requires Reachable(s)
    ensures ProviderOf(s.providers, k).inFlight == |Holding(s.runs, k)|
    ensures forall r :: r in s.runs && s.runs[r].offeredTo == Some(k) ==>
            k in s.providers && s.providers[k].inFlight > 0
  {
    ReachableHolds(s);
    forall r | r in s.runs && s.runs[r].offeredTo == Some(k) ensures k in s.providers && s.providers[k].inFlight > 0 {
      assert r in Holding(s.runs, k);
    }
  }

  /** A step that raises a provider's count leaves it within the limit then declared. */
  lemma LimitIsRespected(s: State, e: Step, k: Key)
    requires Reachable(s) && Enabled(s, e)
    requires ProviderOf(Apply(s, e).providers, k).inFlight > ProviderOf(s.providers, k).inFlight
    ensures var p := ProviderOf(Apply(s, e).providers, k); p.declared.None? || p.inFlight <= p.declared.value
  {
    hide Inv, Apply, Enabled;
    ReachableHolds(s);
    assert s.runs.Keys !! s.done.Keys by { InvBooks(s, {}, Nobody); }
    StepOnward(s, e);
    assert Within(ProviderOf(s.providers, k), ProviderOf(Apply(s, e).providers, k));
  }

  // ---- one turn at a time, in order ----------------------------------------------------------

  /** Of the runs that are not interjections, a thread has at most one offered or held,
      and it is the head of the queue. */
  lemma OneTurnPerThread(s: State, q: RunId, r: RunId)
    requires Reachable(s) && q in s.runs && r in s.runs && s.runs[q].thread == s.runs[r].thread
    requires !Idle(s.runs[q]) && !s.runs[q].isInterjection && !Idle(s.runs[r]) && !s.runs[r].isInterjection
    ensures q == r
    ensures s.runs[r].thread in s.threads && s.threads[s.runs[r].thread].queue != []
    ensures s.threads[s.runs[r].thread].queue[0] == r
  {
    hide Inv;
    ReachableHolds(s);
    InvRun(s, {}, Nobody, q);
    InvRun(s, {}, Nobody, r);
  }

  /** The ordinary runs of a thread are offered in the order they were enqueued,
      whatever interjections come and go. */
  lemma OffersFollowArrivals(s: State, i: nat, j: nat)
    requires Reachable(s) && i < j < |s.offers| && SameLine(s.offers[i], s.offers[j])
    ensures s.offers[i].arrival < s.offers[j].arrival < |s.arrivals|
    ensures s.arrivals[s.offers[i].arrival] == s.offers[i].run && s.arrivals[s.offers[j].arrival] == s.offers[j].run
    ensures forall a, b :: 0 <= a < b < |s.arrivals| ==> s.arrivals[a] != s.arrivals[b]
  {
    ReachableHolds(s);
  }

  // ---- the record ------------------------------------------------------------------------------

  ghost predicate Held(record: seq<Entry>) {
    exists k :: HeldRecord(record, k)
  }

  ghost predicate Taken(record: seq<Entry>) {
    exists k :: TakenRecord(record, k)
  }

  /** `Offer? (Fail | RequestCancel)`, or `Offer Claim (Relay | RequestCancel)* (FinishStream | Fail)`,
      and then the end of the stream. */
  ghost predicate Complete(record: seq<Entry>) {
    && |record| >= 1 && record[|record| - 1] == EndOfStream
    && (UntakenRecord(record[..|record| - 1]) || Taken(record[..|record| - 1]))
  }

  /** A beginning of such a record, short of its last word. */
  ghost predicate Begun(record: seq<Entry>) {
    record == [] || (|record| == 1 && IsCommand(record[0], None) && record[0].command.Offer?) || Held(record)
  }

  /** A tracked run's record is begun, a finished run's is complete. */
  lemma RecordsAreWellTold(s: State, r: RunId)
    requires Reachable(s)
    ensures r in s.runs ==> Begun(s.runs[r].record)
    ensures r in s.done ==> Complete(s.done[r].record)
  {
    hide HeldRecord, TakenRecord, UntakenRecord;
    ReachableHolds(s);
    if r in s.runs { InvRun(s, {}, Nobody, r); }
    if r in s.done { assert DoneShape(r, s.done[r]); }
  }

  predicate IsA(e: Entry, c: Command) {
    e.Did? && match c
              case Offer => e.command.Offer?
              case Claim => e.command.Claim?
              case _ => false
  }

  /** Offered at most once, claimed at most once, and its stream ended only at the end. */
  lemma AtMostOnce(record: seq<Entry>, i: nat, j: nat)
    requires (Begun(record) || Complete(record)) && i < j < |record|
    ensures !(IsA(record[i], Offer) && IsA(record[j], Offer))
    ensures !(IsA(record[i], Claim) && IsA(record[j], Claim))
    ensures record[i] != EndOfStream
  {
    if Complete(record) {
      var told := record[..|record| - 1];
      assert record[i] == told[i];
      assert j < |told| ==> record[j] == told[j];
      if !UntakenRecord(told) {
        var k :| TakenRecord(told, k);
        assert 2 <= i < |told| - 1 ==> MidEntry(told[i], k);
        assert 2 <= j < |told| - 1 ==> MidEntry(told[j], k);
      }
    } else {
      var k :| HeldRecord(record, k);
      assert 2 <= j ==> MidEntry(record[j], k);
      assert 2 <= i ==> MidEntry(record[i], k);
    }
  }

  /** A record is only ever continued, and a finished run is never touched again: so a
      run is settled once, and nothing follows the end of its stream. */
  lemma HistoryStands(s: State, e: Step, r: RunId)
    requires Reachable(s) && Enabled(s, e)
    ensures r in s.done ==> r in Apply(s, e).done && Apply(s, e).done[r] == s.done[r] && r !in Apply(s, e).runs
    ensures r in s.runs ==> Continues(s.runs[r].record, Apply(s, e), r)
  {
    hide Inv, Apply, Enabled;
    ReachableHolds(s);
    StepKeeps(s, e);
    InvBooks(s, {}, Nobody);
    InvBooks(Apply(s, e), {}, Nobody);
    StepOnward(s, e);
  }

  // ---- who may speak --------------------------------------------------------------------------

  /** The words on a record are exactly, in order, what one key said behind the verdict
      with which it took the run, as far as its owner has read; nobody else's report is
      among them, and before there is a claim there are none. What is read is read in
      the order it was posted. */
  lemma OnlyTheHolderSpeaks(s: State, r: RunId)
    requires Reachable(s) && (r in s.runs || r in s.done)
    ensures var run := if r in s.runs then s.runs[r] else s.done[r];
            && run.heard <= run.posted
            && (run.claimedBy.None? ==> Speech(run.record) == [])
            && (run.claimedBy.Some? ==> SpokenBy(r, run, run.claimedBy.value))
  {
    hide Inv, SpokenBy, Speech, DoneShape, RunOK;
    ReachableHolds(s);
    if r in s.runs {
      InvRun(s, {}, Nobody, r);
      RunShapeOf(s, r);
      LiveSpeech(r, s.runs[r]);
    } else {
      assert DoneShape(r, s.done[r]) by { InvDone(s, r); }
      DoneSpeech(r, s.done[r]);
    }
  }

  lemma LiveSpeech(r: RunId, run: Run)
    requires RunShape(r, run)
    ensures run.claimedBy.None? ==> Speech(run.record) == []
    ensures run.claimedBy.Some? ==> SpokenBy(r, run, run.claimedBy.value)
  {
    if run.verdictOpen { SilentBefore(run.record); }
  }

  lemma InvDone(s: State, r: RunId)
    requires Inv(s, {}, Nobody) && r in s.done
    ensures DoneShape(r, s.done[r])
  {
  }

  lemma DoneSpeech(r: RunId, run: Run)
    requires DoneShape(r, run)
    ensures run.heard <= run.posted
    ensures run.claimedBy.None? ==> Speech(run.record) == []
    ensures run.claimedBy.Some? ==> SpokenBy(r, run, run.claimedBy.value)
  {
    var told := run.record[..|run.record| - 1];
    assert run.record == told + [EndOfStream];
    SpeechGrows(told, EndOfStream);
    if run.claimedBy.None? { SilentBefore(told); }
  }

  lemma SilentBefore(record: seq<Entry>)
    requires UntakenRecord(record) || (|record| == 1 && record[0].Did? && record[0].command.Offer?)
    ensures Speech(record) == []
  {
    if |record| == 2 {
      assert record == [record[0]] + [record[1]];
      SpeechGrows([record[0]], record[1]);
    }
    assert [record[0]] == [] + [record[0]];
    SpeechGrows([], record[0]);
    if |record| == 1 { assert record == [record[0]]; }
  }

  /** While a run is tracked, everything posted about it has been read or is still to be. */
  lemma NothingSaidIsLost(s: State, r: RunId)
    requires Reachable(s) && r in s.runs
    ensures s.runs[r].thread in s.threads
    ensures s.runs[r].posted == s.runs[r].heard + Statements(s.threads[s.runs[r].thread].inbox, r)
  {
    ReachableHolds(s);
    FitOf(s, r);
  }

  // ---- cancelling --------------------------------------------------------------------------------

  /** A cancel that was asked for is waiting on a verdict, on the record, or still in
      the owner's inbox, unless the end of the run is. */
  lemma CancelIsNeverLost(s: State, r: RunId)
    requires Reachable(s) && r in s.runs && s.runs[r].cancelRequested
    ensures s.runs[r].thread in s.threads
    ensures var inbox := s.threads[s.runs[r].thread].inbox;
            s.runs[r].verdictOpen || CancelRecorded(s.runs[r].record) || CancelAsked(r) in inbox || FailIn(inbox, r)
  {
    ReachableHolds(s);
    FitOf(s, r);
  }

  /** A run whose cancel was asked for while its verdict was out: whatever step comes next,
      the cancel still waits on the verdict; or the run is over and its last word is the
      cancel, unless what the owner read was its provider's refusal or funduq's own end of
      it; or the run was taken, and the cancel is on its record or its end is posted. */
  lemma CancelOutranksDecline(s: State, e: Step, r: RunId)
    requires Reachable(s) && Enabled(s, e) && r in s.runs && s.runs[r].verdictOpen && s.runs[r].cancelRequested
    ensures var s' := Apply(s, e);
            && (r in s'.runs && s'.runs[r].claimedBy.None? ==> s'.runs[r].verdictOpen && s'.runs[r].cancelRequested)
            && (r in s'.done ==>
                  e.DoOwner? && (LastIs(s'.done[r], RequestCancel)
                                 || EndsOtherwise(s.threads[e.thread].inbox[0], r, s.runs[r].offeredTo)))
            && (r in s'.runs && s'.runs[r].claimedBy.Some? ==>
                  && s'.runs[r].thread in s'.threads
                  && (CancelRecorded(s'.runs[r].record) || FailIn(s'.threads[s'.runs[r].thread].inbox, r)))
            && (r in s'.runs || r in s'.done)
  {
    hide Inv, Apply, OwnerStep, RunOK, CancelRecorded, LastIs, EndsOtherwise;
    ReachableHolds(s);
    InvRun(s, {}, Nobody, r);
    RunShapeOf(s, r);
    assert Pending(s.runs[r]);
    StepKeeps(s, e);
    InvBooks(Apply(s, e), {}, Nobody);
    if e.DoOwner? {
      OwnerApplies(s, e.thread);
      OwnerDecides(s, e.thread, r);
    } else {
      NoOtherStepDecides(s, e, r);
    }
    if r in Apply(s, e).runs { InvRun(Apply(s, e), {}, Nobody, r); }
  }

  lemma OwnerApplies(s: State, t: ThreadId)
    requires Enabled(s, DoOwner(t))
    ensures t in s.threads && s.threads[t].inbox != [] && Apply(s, DoOwner(t)) == OwnerStep(s, t)
  {
    hide OwnerStep;
  }

  // ---- conduct --------------------------------------------------------------------------------------

  /** Every counter is the number of marks of its kind, and no run has made two marks:
      not two of a kind, not against two providers. */
  lemma OneMarkPerRun(s: State)
    requires Reachable(s)
    ensures forall i, j :: 0 <= i < j < |s.ledger| ==> s.ledger[i].run != s.ledger[j].run
    ensures forall k, c :: CountOf(ProviderOf(s.providers, k).counters, c) == Count(s.ledger, k, c)
  {
    ReachableHolds(s);
  }

  /** A step in which a counter reaches the tolerance leaves its provider serving nobody. */
  lemma ToleranceWithdraws(s: State, e: Step, k: Key, c: Counter, a: AgentRef)
    requires Reachable(s) && Enabled(s, e) && s.tolerance.Some?
    requires var before, after := ProviderOf(s.providers, k), ProviderOf(Apply(s, e).providers, k);
             CountOf(after.counters, c) > CountOf(before.counters, c) && CountOf(after.counters, c) >= s.tolerance.value
    ensures a in Apply(s, e).serving ==> Apply(s, e).serving[a] != k
  {
    hide Inv, Apply, Enabled;
    ReachableHolds(s);
    InvBooks(s, {}, Nobody);
    InvRoster(s);
    StepOnward(s, e);
    assert Withdrawn(s, Apply(s, e), k, c, a);
  }

  lemma InvRoster(s: State)
    requires Inv(s, {}, Nobody)
    ensures Roster(s.serving, s.servingOrder, s.providers)
  {
    hide Roster;
  }

  /** A provider's connection slot, once filled, is never emptied; what a disconnect takes
      away is the agents, and an agent has a server exactly while it is listed as served. */
  lemma SlotIsNeverEmptied(s: State, e: Step, k: Key, a: AgentRef)
    requires Reachable(s) && Enabled(s, e)
    ensures ProviderOf(s.providers, k).connection.Some? ==> ProviderOf(Apply(s, e).providers, k).connection.Some?
    ensures Serving(s, a).Some? <==> a in s.serving
  {
    hide Inv, Apply, Enabled;
    ReachableHolds(s);
    InvBooks(s, {}, Nobody);
    InvRoster(s);
    StepOnward(s, e);
  }

  lemma OwnerOnward(s: State, t: ThreadId)
    requires Reachable(s) && Enabled(s, DoOwner(t))
    ensures KeepsServing(s, Apply(s, DoOwner(t))) && Directed(s, Apply(s, DoOwner(t)))
    ensures Roster(s.serving, s.servingOrder, s.providers) && Inv(Apply(s, DoOwner(t)), {}, Nobody)
  {
    hide Inv, Apply, Enabled, Moves, OwnerStep, KeepsServing, Directed, Roster;
    ReachableHolds(s);
    InvRoster(s);
    StepKeeps(s, DoOwner(t));
    OwnerApplies(s, t);
    OwnerMoves(s, t);
    MovedServing(s, OwnerStep(s, t));
  }

  lemma MovedServing(s: State, s': State)
    requires Moves(s, s')
    ensures KeepsServing(s, s') && Directed(s, s')
  {
  }

  /** An owner's step takes an agent out of service only by bringing a counter of the key
      that served it to the tolerance. */
  lemma WithdrawnOnlyAtTolerance(s: State, t: ThreadId, a: AgentRef) returns (c: Counter)
    requires Reachable(s) && Enabled(s, DoOwner(t)) && a in s.serving && a !in Apply(s, DoOwner(t)).serving
    ensures var k, s' := s.serving[a], Apply(s, DoOwner(t));
            && s.tolerance.Some? && CountOf(ProviderOf(s'.providers, k).counters, c) >= s.tolerance.value
            && CountOf(ProviderOf(s'.providers, k).counters, c) > CountOf(ProviderOf(s.providers, k).counters, c)
  {
    OwnerOnward(s, t);
    hide Inv, Apply, Enabled, Roster;
    var k, s' := s.serving[a], Apply(s, DoOwner(t));
    assert Reached(s, s', k);
    c :| CountOf(ProviderOf(s'.providers, k).counters, c) > CountOf(ProviderOf(s.providers, k).counters, c)
         && s.tolerance.Some? && CountOf(ProviderOf(s'.providers, k).counters, c) >= s.tolerance.value;
  }

  /** A run newly offered in a step was offered to the connection that served its agent. */
  lemma OffersGoToTheServer(s: State, t: ThreadId, r: RunId)
    requires Reachable(s) && Enabled(s, DoOwner(t)) && r in Apply(s, DoOwner(t)).runs
    requires r in s.runs ==> Apply(s, DoOwner(t)).runs[r].offerId != s.runs[r].offerId
    ensures r in s.runs
    ensures var run := Apply(s, DoOwner(t)).runs[r];
            && run.agent == s.runs[r].agent && run.offeredConn.Some? && run.offeredConn == Serving(s, run.agent)
            && run.offeredTo == Some(run.offeredConn.value.key)
  {
    OwnerOnward(s, t);
    hide Inv, Apply, Enabled, Roster, Reachable;
    var s' := Apply(s, DoOwner(t));
    InvRun(s', {}, Nobody, r);
    OfferedShape(r, s'.runs[r], s.runs[r].offerId);
  }

  lemma OfferedShape(r: RunId, run: Run, before: nat)
    requires RunShape(r, run) && run.offerId > before
    ensures run.offeredConn.Some? && run.offeredTo == Some(run.offeredConn.value.key)
  {
    hide HeldRecord, SpokenBy;
  }

  lemma ReachableConducts(s: State)
    requires Reachable(s)
    ensures Cond(s)
  {
    var now, timeout, tolerance, steps :|
      0 < timeout && Legal(Init(now, timeout, tolerance), steps) && s == Exec(Init(now, timeout, tolerance), steps);
    InitHolds(now, timeout, tolerance);
    assert Cond(Init(now, timeout, tolerance));
    hide Cond, Inv;
    ExecConducts(Init(now, timeout, tolerance), steps);
  }

  /** What each mark stands for: `misdeclared`, that the marked key declined the run and it
      ended for that; `unanswered`, that an offer ran out and the run ended for that or for
      a cancel; `abandoned`, that the key took the run and funduq had to end it;
      `undelivered`, that the key took the run. Only the last can be made while it lives. */
  lemma MarksAreEarned(s: State, i: nat)
    requires Reachable(s) && i < |s.ledger|
    ensures Earned(s.runs, s.done, s.ledger[i])
  {
    ReachableConducts(s);
    assert s.ledger[i] in s.ledger;
  }

  /** A provider that took a run and left it for funduq to end has been marked for it,
      unless what it said ended it; and a run that was refused or that its provider
      finished has not cost it an `abandoned`. */
  lemma LeavingARunIsAlwaysMarked(s: State, r: RunId)
    requires Reachable(s) && r in s.done && s.done[r].claimedBy.Some?
    ensures var run := s.done[r];
            var k := run.claimedBy.value;
            && (EndedByFunduq(run) && !LastIs(run, Fail(ProviderSentMalformedEvent, POISON)) ==>
                  Mark(r, k, Abandoned) in s.ledger || Mark(r, k, Undeliverable) in s.ledger)
            && (LastIs(run, FinishStream) ==> Mark(r, k, Abandoned) !in s.ledger)
  {
    ReachableConducts(s);
    assert Deserved(s.ledger, r, s.done[r]);
    if Mark(r, s.done[r].claimedBy.value, Abandoned) in s.ledger {
      assert Earned(s.runs, s.done, Mark(r, s.done[r].claimedBy.value, Abandoned));
    }
  }

  // ---- giving up on what nobody serves -----------------------------------------------------------------

  /** No later than twice the timeout: a run left unoffered and unserved has its end
      posted before then. */
  lemma GivenUpInTime(s: State, r: RunId)
    requires Reachable(s) && s.running && r in s.runs && Idle(s.runs[r]) && s.runs[r].agent !in s.serving
    ensures s.runs[r].thread in s.threads
    ensures FailIn(s.threads[s.runs[r].thread].inbox, r) || s.now < Reference(s, s.runs[r]) + 2 * s.timeout
  {
    ReachableHolds(s);
    FitOf(s, r);
    assert s.now <= s.lastSweep + s.timeout by { InvBooks(s, {}, Nobody); }
  }

  /** No earlier than the timeout, and never a run that is offered, held or served:
      these are the runs a sweep gives up on, each of them and no other. */
  lemma SweepPicks(s: State, r: RunId)
    requires Reachable(s)
    ensures r in ExpiredOf(s, s.arrivals) <==>
              r in s.runs && s.runs[r].claimedBy.None? && s.runs[r].offeredTo.None?
              && Serving(s, s.runs[r].agent).None? && Reference(s, s.runs[r]) + s.timeout <= s.now
  {
    ReachableHolds(s);
    InvBooks(s, {}, Nobody);
    ExpiredHolds(s, s.arrivals);
  }
}
