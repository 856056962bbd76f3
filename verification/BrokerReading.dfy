/** What one message does to the run it is about, over the owner's whole step: what goes
    on its record, what it costs its provider, and where it is left. */
module BrokerReading {
  import opened Vocabulary
  import opened BrokerSpec
  import opened BrokerInvariant
  import opened BrokerNoise
  import opened BrokerSteps
  import opened BrokerOwner
  import opened BrokerHistory
  import opened BrokerConduct
  import opened BrokerCancel
  import opened BrokerTheorems

  // ---- after the message, nothing that matters changes ------------------------------------

  lemma OfferLedger(s: State, t: ThreadId, r: RunId, interjection: bool)
    requires t in s.threads && r in s.runs
    ensures OfferTo(s, t, r, interjection).ledger == s.ledger
  {
    hide Settle;
    if CanOffer(s, s.runs[r].agent) && !s.runs[r].validInput {
      LogAndSettleIs(s, t, r, Fail(InputDoesNotValidate, INVALID_INPUT));
    }
  }

  lemma {:induction false} JoinEachLedger(s: State, t: ThreadId, ids: seq<RunId>)
    ensures JoinEach(s, t, ids).ledger == s.ledger
    decreases |ids|
  {
    hide OfferTo;
    if ids != [] {
      var r := ids[0];
      if t in s.threads && r in s.runs {
        OfferLedger(WithQueue(s, t, RemoveFirst(s.threads[t].queue, r)), t, r, true);
      }
      JoinEachLedger(JoinOne(s, t, r), t, ids[1..]);
    }
  }

  lemma AdvanceLedger(s: State, t: ThreadId)
    ensures Advance(s, t).ledger == s.ledger
  {
    hide OfferTo;
    if t in s.threads {
      var q := DropSettled(s.runs, s.threads[t].queue);
      DropSettledHead(s.runs, s.threads[t].queue);
      if q != [] && Idle(s.runs[q[0]]) { OfferLedger(WithQueue(s, t, q), t, q[0], false); }
    }
  }

  /** Looking at the queue and leaving: finished runs, offered or held runs and the ledger
      stay as they are, and what was posted stays posted. */
  ghost predicate Settled(s: State, s': State, t: ThreadId) {
    && s'.ledger == s.ledger
    && (forall r :: r in s.done ==> r in s'.done && s'.done[r] == s.done[r] && r !in s'.runs)
    && (forall r :: r in s.runs && !Idle(s.runs[r]) ==> r in s'.runs && s'.runs[r] == s.runs[r])
    && (t in s'.threads && t in s.threads ==> s.threads[t].inbox <= s'.threads[t].inbox)
    && (t in s.threads && s.threads[t].inbox != [] ==> t in s'.threads)
  }

  lemma AdvanceSettles(s: State, t: ThreadId)
    requires s.runs.Keys !! s.done.Keys
    ensures Settled(s, Advance(s, t), t) && (t in s.threads ==> t in Advance(s, t).threads)
  {
    AdvanceLedger(s, t);
    AdvanceSpares(s, t);
    AdvanceMoves(s, t);
    hide Advance;
    SparedAndMoved(s, Advance(s, t), t);
  }

  lemma SparedAndMoved(s: State, s': State, t: ThreadId)
    requires s.runs.Keys !! s.done.Keys && s'.ledger == s.ledger && Spares(s, s', {}) && Moves(s, s')
    ensures Settled(s, s', t) && (t in s.threads ==> t in s'.threads)
  {
    hide Behaved;
  }

  lemma AfterMessage(s: State, t: ThreadId)
    requires s.runs.Keys !! s.done.Keys
    ensures Settled(s, Retire(Advance(s, t), t), t)
  {
    AdvanceSettles(s, t);
    hide Advance;
  }

  /** The owner's step, taken apart at the message. */
  lemma StepIs(s: State, t: ThreadId)
    requires Reachable(s) && Enabled(s, DoOwner(t))
    ensures t in s.threads && s.threads[t].inbox != [] && t in Take(s, t).threads
    ensures var s2 := OnMessage(Take(s, t), t, s.threads[t].inbox[0]);
            s2.runs.Keys !! s2.done.Keys && Settled(s2, Apply(s, DoOwner(t)), t)
  {
    OwnerApplies(s, t);
    ReachableHolds(s);
    hide Inv, OnMessage, Take, Moves, Settled, OwnerStep, Enabled, Reachable;
    TakeIs(s, t);
    InvBooks(s, {}, Nobody);
    TakeMoves(s, t);
    MessageMoves(Take(s, t), t, s.threads[t].inbox[0]);
    StayApart(s, Take(s, t));
    StayApart(Take(s, t), OnMessage(Take(s, t), t, s.threads[t].inbox[0]));
    AfterMessage(OnMessage(Take(s, t), t, s.threads[t].inbox[0]), t);
    OwnerStepIs(s, t);
  }

  lemma OwnerStepIs(s: State, t: ThreadId)
    requires t in s.threads && s.threads[t].inbox != []
    ensures OwnerStep(s, t) == Retire(Advance(OnMessage(Take(s, t), t, s.threads[t].inbox[0]), t), t)
  {
    hide Take, OnMessage, Advance, Retire;
  }

  /** The run as its owner has it in hand: with the message heard, if it is a statement. */
  function InHand(run: Run, m: Message): Run {
    if m.Answered? || m.Said? then run.(heard := run.heard + [m]) else run
  }

  /** A message about a tracked run, read by its owner. */
  predicate IsRead(s: State, t: ThreadId, r: RunId, m: Message) {
    && t in s.threads && s.threads[t].inbox != [] && s.threads[t].inbox[0] == m
    && !m.Poke? && m.run == r && r in s.runs && s.runs[r].thread == t
  }

  lemma ReadIs(s: State, t: ThreadId, r: RunId, m: Message)
    requires Reachable(s) && IsRead(s, t, r, m) && !m.Queued?
    ensures var s1 := Take(s, t);
            && Live(s1, t, r) && s1.runs[r] == InHand(s.runs[r], m) && s1.ledger == s.ledger
            && s1.providers == s.providers && s1.serving == s.serving
            && (forall q :: q in s.runs && q != r ==> q in s1.runs && s1.runs[q] == s.runs[q])
    ensures RunShape(r, s.runs[r]) && (m.Trusted? ==> m.command.Fail?)
    ensures m.Said? ==> m.command.RelayEvent? || m.command.FinishStream?
  {
    ReachableHolds(s);
    hide Inv, Take, Reachable;
    AboutLive(s, t, r);
    InvRun(s, {}, Nobody, r);
    InvThread(s, {}, Nobody, t);
    assert MessageOK(s.runs, s.threads[t], t, m);
    hide RunShape, Placed, RunOK;
    TakeForm(s, t);
    HeardIs(s, t, r, m);
  }

  lemma HeardIs(s: State, t: ThreadId, r: RunId, m: Message)
    requires t in s.threads && s.threads[t].inbox != [] && s.threads[t].inbox[0] == m && !m.Poke? && m.run == r
    requires Live(s, t, r)
    requires var p := Popped(s, t);
             Take(s, t) == if m.Answered? || m.Said?
                           then SetRun(p, r, p.runs[r].(heard := p.runs[r].heard + [m])) else p
    ensures var s1 := Take(s, t);
            && Live(s1, t, r) && s1.runs[r] == InHand(s.runs[r], m) && s1.ledger == s.ledger
            && s1.providers == s.providers && s1.serving == s.serving
            && (forall q :: q in s.runs && q != r ==> q in s1.runs && s1.runs[q] == s.runs[q])
  {
    hide Take;
  }

  // ---- where a run is left --------------------------------------------------------------------

  function DidAll(run: Run, cs: seq<Command>): seq<Entry> {
    seq(|cs|, i requires 0 <= i < |cs| => Did(cs[i], run.claimedBy, run.cancelRequested))
  }

  /** Finished, with these commands the last on its record. */
  ghost predicate OverWith(s: State, r: RunId, run: Run, cs: seq<Command>) {
    r in s.done && r !in s.runs && s.done[r].record == run.record + DidAll(run, cs) + [EndOfStream]
  }

  ghost predicate StandsAt(s: State, r: RunId, run: Run) {
    r in s.runs && s.runs[r] == run
  }

  lemma OverStill(s: State, s': State, t: ThreadId, r: RunId, run: Run, cs: seq<Command>)
    requires Settled(s, s', t) && OverWith(s, r, run, cs)
    ensures OverWith(s', r, run, cs)
  {
  }

  lemma StandsStill(s: State, s': State, t: ThreadId, r: RunId, run: Run)
    requires Settled(s, s', t) && StandsAt(s, r, run) && !Idle(run)
    ensures StandsAt(s', r, run)
  {
  }

  lemma EndsWithOne(s: State, t: ThreadId, r: RunId, c: Command)
    requires t in s.threads && r in s.runs
    ensures var s' := Settle(Log(s, r, c), t, r);
            OverWith(s', r, s.runs[r], [c]) && s'.ledger == s.ledger
  {
    hide Settle;
    LogAndSettleIs(s, t, r, c);
    assert Ended(Logged(s.runs[r], c)).record
        == s.runs[r].record + [Did(c, s.runs[r].claimedBy, s.runs[r].cancelRequested)]
                                                 + [EndOfStream];
    assert DidAll(s.runs[r], [c]) == [Did(c, s.runs[r].claimedBy, s.runs[r].cancelRequested)];
  }

  lemma UntakenEndsWith(s: State, t: ThreadId, r: RunId, c: Command)
    requires t in s.threads && r in s.runs
    ensures var s' := EndUntaken(Release(s, r), t, r, c);
            OverWith(s', r, s.runs[r], [c]) && s'.ledger == s.ledger
  {
    hide Settle, OverWith;
    EndsWithOne(Release(s, r), t, r, c);
    SameOver(EndUntaken(Release(s, r), t, r, c), r, Release(s, r).runs[r], s.runs[r], [c]);
  }

  lemma SameOver(s: State, r: RunId, run: Run, run': Run, cs: seq<Command>)
    requires OverWith(s, r, run, cs)
    requires run'.record == run.record && run'.claimedBy == run.claimedBy && run'.cancelRequested == run.cancelRequested
    ensures OverWith(s, r, run', cs)
  {
  }

  // ---- a cancel is read -----------------------------------------------------------------------

  /** Under offer the run waits on, marked; held, the request is newly on its record; taken
      by nobody and offered to nobody, it is over, and the request is its last word. */
  lemma CancelIsRead(s: State, t: ThreadId, r: RunId)
    requires Reachable(s) && Enabled(s, DoOwner(t)) && IsRead(s, t, r, CancelAsked(r))
    ensures var s', run := Apply(s, DoOwner(t)), s.runs[r];
            var asked := run.(cancelRequested := true);
            && s'.ledger == s.ledger
            && if run.verdictOpen then StandsAt(s', r, asked)
               else if run.claimedBy.Some? then StandsAt(s', r, Logged(asked, RequestCancel))
               else OverWith(s', r, asked, [RequestCancel])
  {
    StepIs(s, t);
    ReadIs(s, t, r, CancelAsked(r));
    var s1 := Take(s, t);
    var s2 := OnMessage(s1, t, CancelAsked(r));
    CancelMade(s1, t, r);
    hide OnMessage, Take, Enabled, Apply, Settled, OverWith, StandsAt, RunShape;
    Carry(s2, Apply(s, DoOwner(t)), t, r);
  }

  lemma CancelMade(s: State, t: ThreadId, r: RunId)
    requires Live(s, t, r)
    ensures var s', run := OnCancelAsked(s, t, r), s.runs[r];
            var asked := run.(cancelRequested := true);
            && s'.ledger == s.ledger
            && if run.verdictOpen then StandsAt(s', r, asked)
               else if run.claimedBy.Some? then StandsAt(s', r, Logged(asked, RequestCancel))
               else OverWith(s', r, asked, [RequestCancel])
  {
    hide Settle, OverWith;
    var s1 := SetRun(s, r, s.runs[r].(cancelRequested := true));
    EndsWithOne(s1, t, r, RequestCancel);
  }

  /** What the message made of the run is what the step makes of it. */
  lemma Carry(s: State, s': State, t: ThreadId, r: RunId)
    requires Settled(s, s', t)
    ensures s'.ledger == s.ledger
    ensures forall run, cs :: OverWith(s, r, run, cs) ==> OverWith(s', r, run, cs)
    ensures forall run :: StandsAt(s, r, run) && !Idle(run) ==> StandsAt(s', r, run)
  {
    forall run, cs | OverWith(s, r, run, cs) ensures OverWith(s', r, run, cs) { OverStill(s, s', t, r, run, cs); }
    forall run | StandsAt(s, r, run) && !Idle(run) ensures StandsAt(s', r, run) { StandsStill(s, s', t, r, run); }
  }

  // ---- a lapse is read ---------------------------------------------------------------------

  /** The lapse of the offer that is out ends the run, cancelled if that was asked for and
      unanswered otherwise, and marks the provider; any other lapse does nothing to it. */
  lemma LapseIsRead(s: State, t: ThreadId, r: RunId, o: nat)
    requires Reachable(s) && Enabled(s, DoOwner(t)) && IsRead(s, t, r, OfferLapsed(r, o))
    ensures var s', run := Apply(s, DoOwner(t)), s.runs[r];
            if run.verdictOpen && run.offerId == o then
              && run.offeredTo.Some? && s'.ledger == s.ledger + [Mark(r, run.offeredTo.value, Unanswered)]
              && OverWith(s', r, run, [if run.cancelRequested then RequestCancel else Fail(ProviderDidNotAnswer, "")])
            else s'.ledger == s.ledger && (!Idle(run) ==> StandsAt(s', r, run))
  {
    StepIs(s, t);
    ReadIs(s, t, r, OfferLapsed(r, o));
    hide Settled, Enabled, Apply, Take;
    if s.runs[r].verdictOpen { OfferedHasKey(r, s.runs[r]); }
    hide RunShape;
    var s2 := OnMessage(Take(s, t), t, OfferLapsed(r, o));
    LapseMade(Take(s, t), t, r, o);
    hide OnMessage, Take, Enabled, Apply, Settled, OverWith, StandsAt, RunShape;
    Carry(s2, Apply(s, DoOwner(t)), t, r);
  }

  lemma OfferedHasKey(r: RunId, run: Run)
    requires RunShape(r, run) && run.verdictOpen
    ensures run.offeredTo.Some? && run.claimedBy.None?
  {
    hide HeldRecord, SpokenBy;
  }

  lemma LapseMade(s: State, t: ThreadId, r: RunId, o: nat)
    requires Live(s, t, r) && (s.runs[r].verdictOpen ==> s.runs[r].offeredTo.Some?)
    ensures var s', run := OnOfferLapsed(s, t, r, o), s.runs[r];
            if run.verdictOpen && run.offerId == o then
              && s'.ledger == s.ledger + [Mark(r, run.offeredTo.value, Unanswered)]
              && OverWith(s', r, run, [if run.cancelRequested then RequestCancel else Fail(ProviderDidNotAnswer, "")])
            else s'.ledger == s.ledger && StandsAt(s', r, run)
  {
    hide Settle, OverWith, NoteAbnormal, EndUntaken;
    var run := s.runs[r];
    if run.verdictOpen && run.offerId == o {
      var s1 := CloseVerdict(s, r);
      var s2 := NoteAbnormal(s1, r, run.offeredTo.value, Unanswered);
      NoteIs(s1, r, run.offeredTo.value, Unanswered);
      var c := if run.cancelRequested then RequestCancel else Fail(ProviderDidNotAnswer, "");
      UntakenEndsWith(s2, t, r, c);
      SameOver(EndUntaken(Release(s2, r), t, r, c), r, s2.runs[r], run, [c]);
    }
  }

  // ---- funduq's own end, the host's word ------------------------------------------------------

  /** funduq's own end is a run's last word, and marks a provider that took it, once. */
  lemma EndIsRead(s: State, t: ThreadId, r: RunId, c: Command)
    requires Reachable(s) && Enabled(s, DoOwner(t)) && IsRead(s, t, r, Trusted(r, c))
    ensures var s', run := Apply(s, DoOwner(t)), s.runs[r];
            && c.Fail? && OverWith(s', r, run, [c])
            && s'.ledger == s.ledger + (if run.claimedBy.Some? && !run.notedAbnormal
                                        then [Mark(r, run.claimedBy.value, Abandoned)] else [])
  {
    StepIs(s, t);
    ReadIs(s, t, r, Trusted(r, c));
    var s2 := OnMessage(Take(s, t), t, Trusted(r, c));
    EndMade(Take(s, t), t, r, c);
    hide OnMessage, Take, Enabled, Apply, Settled, OverWith, StandsAt, RunShape;
    Carry(s2, Apply(s, DoOwner(t)), t, r);
  }

  lemma NotedOnce(s: State, r: RunId, c: Counter)
    requires r in s.runs
    ensures var s', run := NoteOnce(s, r, c), s.runs[r];
            var marks := run.claimedBy.Some? && !run.notedAbnormal;
            && s'.threads.Keys == s.threads.Keys
            && s'.runs == (if marks then s.runs[r := run.(notedAbnormal := true)] else s.runs)
            && s'.ledger == s.ledger + if marks then [Mark(r, run.claimedBy.value, c)] else []
  {
    hide NoteAbnormal;
    var run := s.runs[r];
    assert s.ledger + [] == s.ledger;
    if run.claimedBy.Some? { NoteIs(SetRun(s, r, run.(notedAbnormal := true)), r, run.claimedBy.value, c); }
  }

  lemma EndMade(s: State, t: ThreadId, r: RunId, c: Command)
    requires Live(s, t, r) && c.Fail?
    ensures var s', run := OnTrusted(s, t, r, c), s.runs[r];
            && OverWith(s', r, run, [c])
            && s'.ledger == s.ledger + (if run.claimedBy.Some? && !run.notedAbnormal
                                        then [Mark(r, run.claimedBy.value, Abandoned)] else [])
  {
    hide Settle, OverWith, NoteOnce;
    NotedOnce(s, r, Abandoned);
    var s1 := NoteOnce(s, r, Abandoned);
    EndsWithOne(s1, t, r, c);
    SameOver(Settle(Log(s1, r, c), t, r), r, s1.runs[r], s.runs[r], [c]);
  }

  /** The host's word that a run is undelivered marks the provider holding it, once, and
      leaves the run alone. */
  lemma UndeliveredIsRead(s: State, t: ThreadId, r: RunId)
    requires Reachable(s) && Enabled(s, DoOwner(t)) && IsRead(s, t, r, Undelivered(r))
    ensures var s', run := Apply(s, DoOwner(t)), s.runs[r];
            if run.claimedBy.Some? && !run.notedAbnormal then
              && s'.ledger == s.ledger + [Mark(r, run.claimedBy.value, Undeliverable)]
              && StandsAt(s', r, run.(notedAbnormal := true))
            else s'.ledger == s.ledger && (!Idle(run) ==> StandsAt(s', r, run))
  {
    StepIs(s, t);
    ReadIs(s, t, r, Undelivered(r));
    var s2 := OnMessage(Take(s, t), t, Undelivered(r));
    NotedOnce(Take(s, t), r, Undeliverable);
    hide OnMessage, Take, Enabled, Apply, Settled, OverWith, RunShape, NoteOnce;
    UndeliveredMade(Take(s, t), t, r);
    Carry(s2, Apply(s, DoOwner(t)), t, r);
    hide StandsAt;
  }

  lemma UndeliveredMade(s: State, t: ThreadId, r: RunId)
    requires Live(s, t, r)
    ensures OnMessage(s, t, Undelivered(r)) == NoteOnce(s, r, Undeliverable)
  {
    hide NoteOnce;
  }

  // ---- a report is read --------------------------------------------------------------------------

  /** The holder's word goes on the record; a malformed event is its last word but one, the
      end of the stream its last. Anybody else's word is heard and goes nowhere. */
  lemma ReportIsRead(s: State, t: ThreadId, r: RunId, k: Key, c: Command)
    requires Reachable(s) && Enabled(s, DoOwner(t)) && IsRead(s, t, r, Said(r, k, c))
    ensures var s', heard := Apply(s, DoOwner(t)), InHand(s.runs[r], Said(r, k, c));
            && s'.ledger == s.ledger
            && if s.runs[r].claimedBy != Some(k) then !Idle(s.runs[r]) ==> StandsAt(s', r, heard)
               else if c.RelayEvent? && Malformed(c.event) then
                 OverWith(s', r, heard, [c, Fail(ProviderSentMalformedEvent, POISON)])
               else if c.FinishStream? then OverWith(s', r, heard, [c])
               else c.RelayEvent? && StandsAt(s', r, Logged(heard, c))
  {
    StepIs(s, t);
    ReadIs(s, t, r, Said(r, k, c));
    var s2 := OnMessage(Take(s, t), t, Said(r, k, c));
    ReportMade(Take(s, t), t, r, k, c);
    hide OnMessage, Take, Enabled, Apply, Settled, OverWith, StandsAt, RunShape;
    Carry(s2, Apply(s, DoOwner(t)), t, r);
  }

  lemma PoisonMade(s: State, t: ThreadId, r: RunId, c: Command)
    requires t in s.threads && r in s.runs && c.RelayEvent? && Malformed(c.event)
    ensures var s' := RecordAndMaybeSettle(s, t, r, c);
            s'.ledger == s.ledger && OverWith(s', r, s.runs[r], [c, Fail(ProviderSentMalformedEvent, POISON)])
  {
    hide Settle, OverWith, Malformed, Logged;
    var s1, last := Log(s, r, c), Fail(ProviderSentMalformedEvent, POISON);
    EndsWithOne(s1, t, r, last);
    TwoLastWords(Settle(Log(s1, r, last), t, r), r, s.runs[r], c, last);
  }

  lemma ReportMade(s: State, t: ThreadId, r: RunId, k: Key, c: Command)
    requires Live(s, t, r)
    ensures var s', run := OnSaid(s, t, r, k, c), s.runs[r];
            && s'.ledger == s.ledger
            && if run.claimedBy != Some(k) then StandsAt(s', r, run)
               else if c.RelayEvent? && Malformed(c.event) then
                 OverWith(s', r, run, [c, Fail(ProviderSentMalformedEvent, POISON)])
               else if c.FinishStream? then OverWith(s', r, run, [c])
               else StandsAt(s', r, Logged(run, c))
  {
    hide Settle, OverWith, Malformed, Logged;
    if c.RelayEvent? && Malformed(c.event) { PoisonMade(s, t, r, c); }
    if c.FinishStream? { EndsWithOne(s, t, r, c); }
  }

  lemma TwoLastWords(s: State, r: RunId, run: Run, c: Command, d: Command)
    requires OverWith(s, r, Logged(run, c), [d])
    ensures OverWith(s, r, run, [c, d])
  {
    assert DidAll(Logged(run, c), [d]) == [Did(d, run.claimedBy, run.cancelRequested)];
    assert DidAll(run, [c, d])
        == [Did(c, run.claimedBy, run.cancelRequested)] + [Did(d, run.claimedBy, run.cancelRequested)];
  }

  // ---- a verdict is read ----------------------------------------------------------------------------

  /** The place a run holds would leave its provider room. */
  predicate RoomWithout(p: Provider) {
    p.declared.None? || p.inFlight - 1 < p.declared.value
  }

  /** A verdict that answers no open offer, or somebody else's, is heard and goes nowhere. */
  lemma StrayVerdictIsRead(s: State, t: ThreadId, r: RunId, k: Key, v: Verdict)
    requires Reachable(s) && Enabled(s, DoOwner(t)) && IsRead(s, t, r, Answered(r, k, v))
    requires !s.runs[r].verdictOpen || s.runs[r].offeredTo != Some(k)
    ensures var s' := Apply(s, DoOwner(t));
            && s'.ledger == s.ledger
            && (!Idle(s.runs[r]) ==> StandsAt(s', r, InHand(s.runs[r], Answered(r, k, v))))
  {
    StepIs(s, t);
    ReadIs(s, t, r, Answered(r, k, v));
    var s2 := OnMessage(Take(s, t), t, Answered(r, k, v));
    assert s2 == Take(s, t);
    hide OnMessage, Take, Enabled, Apply, Settled, OverWith, RunShape;
    Carry(s2, Apply(s, DoOwner(t)), t, r);
  }

  /** A refusal ends the run with its reason; a decline after a cancel ends it cancelled; any
      other decline ends it declined, and marks a provider that had room for it. */
  lemma RefusalIsRead(s: State, t: ThreadId, r: RunId, k: Key, v: Verdict)
    requires Reachable(s) && Enabled(s, DoOwner(t)) && IsRead(s, t, r, Answered(r, k, v))
    requires s.runs[r].verdictOpen && s.runs[r].offeredTo == Some(k) && !v.Accepted?
    ensures var s', run := Apply(s, DoOwner(t)), s.runs[r];
            var told := !v.Refused? && !run.cancelRequested;
            && OverWith(s', r, run, [if v.Refused? then Fail(ProviderRefused, v.reason)
                                     else if run.cancelRequested then RequestCancel else Fail(ProviderDeclined, "")])
            && s'.ledger == s.ledger + if told && RoomWithout(ProviderOf(s.providers, k)) then [Mark(r, k, Misdeclared)]
                                       else []
  {
    StepIs(s, t);
    ReadIs(s, t, r, Answered(r, k, v));
    PlaceIsHeld(s, r, k);
    var s1 := Take(s, t);
    var s2 := OnMessage(s1, t, Answered(r, k, v));
    RefusalMade(s1, t, r, k, v);
    hide OnMessage, Take, Enabled, Apply, Settled, StandsAt, RunShape, OverWith;
    SameOver(s2, r, s1.runs[r], s.runs[r], [Closing(v, s.runs[r])]);
    Carry(s2, Apply(s, DoOwner(t)), t, r);
  }

  /** What a verdict that takes nothing puts last on the record. */
  function Closing(v: Verdict, run: Run): Command {
    if v.Refused? then Fail(ProviderRefused, v.reason)
    else if run.cancelRequested then RequestCancel
    else Fail(ProviderDeclined, "")
  }

  lemma PlaceIsHeld(s: State, r: RunId, k: Key)
    requires Reachable(s) && r in s.runs && s.runs[r].offeredTo == Some(k)
    ensures k in s.providers && s.providers[k].inFlight > 0
  {
    hide Reachable;
    CapacityIsConserved(s, k);
  }

  lemma RefusalMade(s: State, t: ThreadId, r: RunId, k: Key, v: Verdict)
    requires Live(s, t, r) && s.runs[r].verdictOpen && s.runs[r].offeredTo == Some(k) && !v.Accepted?
    requires k in s.providers && s.providers[k].inFlight > 0
    ensures var s', run := OnAnswered(s, t, r, k, v), s.runs[r];
            var told := !v.Refused? && !run.cancelRequested;
            && OverWith(s', r, run, [Closing(v, run)])
            && s'.ledger == s.ledger + if told && RoomWithout(ProviderOf(s.providers, k)) then [Mark(r, k, Misdeclared)]
                                       else []
  {
    hide Settle, OverWith, NoteMisdeclared, EndUntaken;
    var run := s.runs[r];
    var s1 := CloseVerdict(s, r);
    var c := Closing(v, run);
    assert s.ledger + [] == s.ledger;
    if v.Refused? || run.cancelRequested {
      UntakenEndsWith(s1, t, r, c);
      SameOver(EndUntaken(Release(s1, r), t, r, c), r, s1.runs[r], run, [c]);
    } else {
      DeclineMade(s1, t, r, k);
      SameOver(EndUntaken(NoteMisdeclared(Release(s1, r), r, k), t, r, c), r, s1.runs[r], run, [c]);
    }
  }

  lemma DeclineMade(s: State, t: ThreadId, r: RunId, k: Key)
    requires t in s.threads && r in s.runs && s.runs[r].offeredTo == Some(k)
    requires k in s.providers && s.providers[k].inFlight > 0
    ensures var c := Fail(ProviderDeclined, "");
            var s' := EndUntaken(NoteMisdeclared(Release(s, r), r, k), t, r, c);
            && OverWith(s', r, s.runs[r], [c])
            && s'.ledger == s.ledger + if RoomWithout(ProviderOf(s.providers, k)) then [Mark(r, k, Misdeclared)] else []
  {
    hide Settle, OverWith, NoteAbnormal;
    var c, s1 := Fail(ProviderDeclined, ""), Release(s, r);
    var s2 := NoteMisdeclared(s1, r, k);
    NoteIs(s1, r, k, Misdeclared);
    EndsWithOne(s2, t, r, c);
    SameOver(Settle(Log(s2, r, c), t, r), r, s2.runs[r], s.runs[r], [c]);
  }
}
