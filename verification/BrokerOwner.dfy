/** One owner reading one message keeps the invariant, whatever the message is. */
module BrokerOwner {
  import opened Vocabulary
  import opened BrokerSpec
  import opened BrokerInvariant
  import opened BrokerNoise
  import opened BrokerSteps

  // ---- taking a message off the inbox -------------------------------------------------

  lemma FailInTail(inbox: seq<Message>, r: RunId)
    requires inbox != [] && FailIn(inbox, r) && !IsFail(inbox[0], r)
    ensures FailIn(inbox[1..], r)
  {
    var i :| 0 <= i < |inbox| && IsFail(inbox[i], r);
    assert IsFail(inbox[1..][i - 1], r);
  }

  /** A message that is not about a run is not missed by it. */
  lemma PoppedFits(q: RunId, run: Run, h: ThreadHandler, served: bool, slack: int)
    requires h.inbox != [] && !About(h.inbox[0], q) && Fits(q, run, h, served, slack)
    ensures Fits(q, run, h.(inbox := h.inbox[1..]), served, slack)
  {
    var inbox, rest := h.inbox, h.inbox[1..];
    assert inbox == [inbox[0]] + rest;
    assert Statements(inbox, q) == Statements(rest, q);
    if FailIn(inbox, q) { FailInTail(inbox, q); }
  }

  lemma PoppedShape(runs: map<RunId, Run>, h: ThreadHandler, t: ThreadId)
    requires h.inbox != [] && InboxShape(runs, h, t)
    ensures InboxShape(runs, h.(inbox := h.inbox[1..]), t)
  {
    var rest := h.inbox[1..];
    var h' := h.(inbox := rest);
    forall i | 0 <= i < |rest| ensures MessageOK(runs, h', t, rest[i]) {
      assert MessageOK(runs, h, t, h.inbox[i + 1]);
    }
    forall i, j | 0 <= i < j < |rest| && rest[j].Queued? ensures !About(rest[i], rest[j].run) {
      assert rest[i] == h.inbox[i + 1] && rest[j] == h.inbox[j + 1];
    }
  }

  function Pop(s: State, t: ThreadId): State
    requires t in s.threads && s.threads[t].inbox != []
  {
    s.(threads := s.threads[t := s.threads[t].(inbox := s.threads[t].inbox[1..])])
  }

  lemma PopRuns(s: State, t: ThreadId, x: set<RunId>)
    requires t in s.threads && s.threads[t].inbox != [] && RunsOK(s, {})
    requires forall q :: q in s.runs && s.runs[q].thread == t && About(s.threads[t].inbox[0], q) ==> q in x
    ensures RunsOK(Pop(s, t), x)
  {
    var s' := Pop(s, t);
    forall q | q in s'.runs && q !in x ensures RunOK(s', q) {
      assert RunOK(s, q);
      if s.runs[q].thread == t {
        PoppedFits(q, s.runs[q], s.threads[t], s.runs[q].agent in s.serving, Slack(s, s.runs[q]));
      }
    }
  }

  lemma PopThreads(s: State, t: ThreadId)
    requires t in s.threads && s.threads[t].inbox != [] && ThreadsOK(s.runs, s.threads) && Rested(s, Nobody)
    ensures ThreadsOK(Pop(s, t).runs, Pop(s, t).threads) && Rested(Pop(s, t), Busy(t))
  {
    var s' := Pop(s, t);
    forall u | u in s'.threads ensures ThreadShape(s'.runs, s'.threads[u], u) {
      assert ThreadShape(s.runs, s.threads[u], u);
      PoppedShape(s.runs, s.threads[t], t);
    }
    forall u | u in s'.threads && u != t ensures Alive(s'.threads[u]) && Awake(s', u) {
      assert Awake(s, u);
    }
  }

  /** A run the first message is about is live, if it is tracked by this owner at all:
      nothing about a run overtakes its `Queued`. */
  lemma AboutLive(s: State, t: ThreadId, r: RunId)
    requires Inv(s, {}, Nobody) && t in s.threads && s.threads[t].inbox != []
    requires r in s.runs && s.runs[r].thread == t && About(s.threads[t].inbox[0], r) && !s.threads[t].inbox[0].Queued?
    ensures r in s.threads[t].live
  {
    hide Inv, RunOK;
    InvRun(s, {}, Nobody, r);
    InvThread(s, {}, Nobody, t);
    QueuedFirst(s.runs, s.threads[t], t, r);
  }

  lemma QueuedFirst(runs: map<RunId, Run>, h: ThreadHandler, t: ThreadId, r: RunId)
    requires ThreadShape(runs, h, t) && h.inbox != [] && About(h.inbox[0], r) && !h.inbox[0].Queued?
    ensures Queued(r) !in h.inbox
  {
  }

  lemma PopLines(s: State, t: ThreadId)
    requires t in s.threads && s.threads[t].inbox != [] && Lines(s.runs, s.threads) && Books(s)
    ensures Lines(Pop(s, t).runs, Pop(s, t).threads) && Books(Pop(s, t))
  {
    var s' := Pop(s, t);
    forall u | u in s'.threads ensures InLine(s'.runs, s'.threads[u]) {
      assert InLine(s.runs, s.threads[u]);
      if u == t { InLinePops(s.runs, s.threads[t]); }
    }
  }

  lemma InLinePops(runs: map<RunId, Run>, h: ThreadHandler)
    requires InLine(runs, h) && h.inbox != []
    ensures InLine(runs, h.(inbox := h.inbox[1..]))
  {
    assert forall i :: 0 <= i < |h.inbox| - 1 ==> h.inbox[1..][i] == h.inbox[i + 1];
  }

  /** A message about nobody this owner tracks. */
  lemma PopKeeps(s: State, t: ThreadId)
    requires Inv(s, {}, Nobody) && t in s.threads && s.threads[t].inbox != []
    requires forall q :: q in s.runs && s.runs[q].thread == t ==> !About(s.threads[t].inbox[0], q)
    ensures Inv(Pop(s, t), {}, Busy(t))
  {
    hide Books, Roster, Capacity, ThreadsOK, Rested, RunsOK, DoneOK, Ledger, Lines, OffersOK;
    PopRuns(s, t, {});
    PopThreads(s, t);
    PopLines(s, t);
  }

  /** A message about a live run: the run is exempt until its owner has dealt with it. */
  lemma PopAbout(s: State, t: ThreadId, r: RunId)
    requires Inv(s, {}, Nobody) && t in s.threads && s.threads[t].inbox != []
    requires About(s.threads[t].inbox[0], r) && r in s.threads[t].live
    ensures Inv(Pop(s, t), {r}, Busy(t))
  {
    hide Books, Roster, Capacity, ThreadsOK, Rested, RunsOK, DoneOK, Ledger, Lines, OffersOK;
    InvThread(s, {}, Nobody, t);
    PopRuns(s, t, {r});
    PopThreads(s, t);
    PopLines(s, t);
  }

  // ---- what is left of a run's fit once a message about it is taken off -----------------

  predicate Reads(s: State, t: ThreadId, r: RunId) {
    t in s.threads && s.threads[t].inbox != [] && About(s.threads[t].inbox[0], r)
    && r in s.threads[t].live && r in s.runs && s.runs[r].thread == t && RunOK(s, r)
  }

  /** A message that left the run as it was. */
  lemma LeftFits(r: RunId, run: Run, h: ThreadHandler, served: bool, slack: int)
    requires h.inbox != [] && r in h.live && Fits(r, run, h, served, slack)
    requires var m := h.inbox[0];
             m.Undelivered? || (m.OfferLapsed? && (!run.verdictOpen || run.offerId != m.offerId))
    ensures Fits(r, run, h.(inbox := h.inbox[1..]), served, slack)
  {
    var inbox, rest := h.inbox, h.inbox[1..];
    assert inbox == [inbox[0]] + rest;
    assert Statements(inbox, r) == Statements(rest, r);
    if FailIn(inbox, r) { FailInTail(inbox, r); }
  }

  lemma LeftAlone(s: State, t: ThreadId, r: RunId)
    requires Reads(s, t, r)
    requires var m := s.threads[t].inbox[0];
             m.Undelivered? || (m.OfferLapsed? && (!s.runs[r].verdictOpen || s.runs[r].offerId != m.offerId))
    ensures RunOK(Pop(s, t), r)
  {
    hide Fits;
    LeftFits(r, s.runs[r], s.threads[t], s.runs[r].agent in s.serving, Slack(s, s.runs[r]));
  }

  function HeardMore(run: Run, m: Message): Run {
    run.(heard := run.heard + [m])
  }

  /** Hearing anything but the holder's own report leaves what was said unchanged. */
  lemma HeardOnly(r: RunId, run: Run, m: Message)
    requires RunShape(r, run) && !(m.Said? && run.claimedBy == Some(m.origin))
    ensures RunShape(r, HeardMore(run, m))
  {
    if run.claimedBy.Some? {
      var k := run.claimedBy.value;
      assert HeardMore(run, m).heard[run.claimedAt..] == run.heard[run.claimedAt..] + [m];
      SaidByGrows(run.heard[run.claimedAt..], m, k);
    }
  }

  lemma HeardNext(s: State, t: ThreadId, r: RunId)
    requires Reads(s, t, r) && IsStatement(s.threads[t].inbox[0], r)
    ensures Heard(r, HeardMore(s.runs[r], s.threads[t].inbox[0]), s.threads[t].inbox[1..])
    ensures HeardMore(s.runs[r], s.threads[t].inbox[0]).heard <= s.runs[r].posted
  {
    var inbox, rest := s.threads[t].inbox, s.threads[t].inbox[1..];
    assert Statements(inbox, r) == [inbox[0]] + Statements(rest, r);
    assert s.runs[r].heard + ([inbox[0]] + Statements(rest, r)) == s.runs[r].heard + [inbox[0]] + Statements(rest, r);
  }

  /** A statement that answers nothing, or comes from nobody that holds the run. */
  lemma IgnoredFits(r: RunId, run: Run, h: ThreadHandler, served: bool, slack: int)
    requires h.inbox != [] && IsStatement(h.inbox[0], r) && r in h.live && Fits(r, run, h, served, slack)
    requires !(h.inbox[0].Said? && run.claimedBy == Some(h.inbox[0].origin))
    requires Heard(r, HeardMore(run, h.inbox[0]), h.inbox[1..])
    ensures Fits(r, HeardMore(run, h.inbox[0]), h.(inbox := h.inbox[1..]), served, slack)
  {
    HeardOnly(r, run, h.inbox[0]);
    if FailIn(h.inbox, r) { FailInTail(h.inbox, r); }
  }

  lemma StatementIgnored(s: State, t: ThreadId, r: RunId)
    requires Reads(s, t, r) && IsStatement(s.threads[t].inbox[0], r)
    requires var m := s.threads[t].inbox[0]; !(m.Said? && s.runs[r].claimedBy == Some(m.origin))
    ensures RunOK(Take(s, t), r)
  {
    HeardNext(s, t, r);
    IgnoredFits(r, s.runs[r], s.threads[t], s.runs[r].agent in s.serving, Slack(s, s.runs[r]));
  }

  /** The holder's own report, put on the record: the run holds on. */
  lemma HeldRecordGrows(record: seq<Entry>, e: Entry, k: Key)
    requires HeldRecord(record, k) && MidEntry(e, k) && !Poisons(e)
    ensures HeldRecord(record + [e], k)
  {
  }

  lemma ReportRecorded(r: RunId, run: Run, k: Key, c: Command)
    requires HeldBy(r, run, k) && c.RelayEvent? && !Malformed(c.event)
    ensures HeldBy(r, Logged(HeardMore(run, Said(r, k, c)), c), k)
  {
    hide Speech, SaidBy, HeldRecord;
    var m, e := Said(r, k, c), Did(c, Some(k), run.cancelRequested);
    var run' := Logged(HeardMore(run, m), c);
    HeldRecordGrows(run.record, e, k);
    SpeechGrows(run.record, e);
    assert run'.heard[run.claimedAt..] == run.heard[run.claimedAt..] + [m];
    SaidByGrows(run.heard[run.claimedAt..], m, k);
  }

  lemma CancelRecordedGrows(record: seq<Entry>, e: Entry)
    requires CancelRecorded(record) || (e.Did? && e.command.RequestCancel?)
    ensures CancelRecorded(record + [e])
  {
    if CancelRecorded(record) {
      var i :| 0 <= i < |record| && record[i].Did? && record[i].command.RequestCancel?;
      assert (record + [e])[i] == record[i];
    } else {
      assert (record + [e])[|record|] == e;
    }
  }

  lemma ReportFits(r: RunId, run: Run, h: ThreadHandler, served: bool, slack: int, k: Key, c: Command)
    requires h.inbox != [] && h.inbox[0] == Said(r, k, c) && run.claimedBy == Some(k) && r in h.live
    requires c.RelayEvent? && !Malformed(c.event) && Fits(r, run, h, served, slack)
    requires Heard(r, HeardMore(run, h.inbox[0]), h.inbox[1..])
    ensures Fits(r, Logged(HeardMore(run, h.inbox[0]), c), h.(inbox := h.inbox[1..]), served, slack)
  {
    var inbox, rest := h.inbox, h.inbox[1..];
    var run' := Logged(HeardMore(run, inbox[0]), c);
    assert RunShape(r, run') by { ReportRecorded(r, run, k, c); }
    if FailIn(inbox, r) { FailInTail(inbox, r); }
    assert CancelKept(r, run', rest) by {
      if CancelRecorded(run.record) {
        CancelRecordedGrows(run.record, Did(c, Some(k), run.cancelRequested));
      } else if CancelAsked(r) in inbox {
        assert CancelAsked(r) in rest;
      }
    }
  }

  // ---- each kind of message ------------------------------------------------------------

  lemma TakeAbout(s: State, t: ThreadId, r: RunId)
    requires Inv(s, {}, Nobody) && Reads(s, t, r)
    ensures Inv(Take(s, t), {r}, Busy(t))
    ensures var m := s.threads[t].inbox[0];
            Take(s, t) == if IsStatement(m, r) then SetRun(Pop(s, t), r, HeardMore(s.runs[r], m)) else Pop(s, t)
  {
    hide Inv, RunOK;
    PopAbout(s, t, r);
    var m := s.threads[t].inbox[0];
    if IsStatement(m, r) { SetRunKeeps(Pop(s, t), r, HeardMore(s.runs[r], m), {r}, Busy(t)); }
  }

  lemma RejoinsAlone(s: State, r: RunId, busy: Focus)
    requires Inv(s, {r}, busy) && RunOK(s, r)
    ensures Inv(s, {}, busy)
  {
    assert {} + {r} == {r};
    Rejoins(s, r, {}, busy);
  }

  lemma SettleAlone(s: State, t: ThreadId, r: RunId, busy: Focus)
    requires Inv(s, {r}, busy) && On(busy, t) && t in s.threads && r in s.runs && DoneShape(r, Ended(s.runs[r]))
    ensures Inv(Settle(s, t, r), {}, Busy(t))
  {
    assert {} + {r} == {r};
    SettleKeeps(s, t, r, {}, busy);
  }

  lemma LogKeeps(s: State, r: RunId, c: Command, busy: Focus)
    requires Inv(s, {r}, busy) && r in s.runs
    ensures Inv(Log(s, r, c), {r}, busy)
  {
    SetRunKeeps(s, r, Logged(s.runs[r], c), {r}, busy);
  }

  lemma LogAndSettle(s: State, t: ThreadId, r: RunId, c: Command, busy: Focus)
    requires Inv(s, {r}, busy) && On(busy, t) && t in s.threads && r in s.runs
    requires DoneShape(r, Ended(Logged(s.runs[r], c)))
    ensures Inv(Settle(Log(s, r, c), t, r), {}, Busy(t))
  {
    LogKeeps(s, r, c, busy);
    SettleAlone(Log(s, r, c), t, r, busy);
  }

  lemma SaidKeeps(s: State, t: ThreadId, r: RunId, k: Key, c: Command)
    requires Inv(s, {}, Nobody) && Reads(s, t, r) && s.threads[t].inbox[0] == Said(r, k, c)
    ensures Inv(OnSaid(Take(s, t), t, r, k, c), {}, Busy(t))
  {
    hide Inv, Fits;
    var s1 := Take(s, t);
    var run := s.runs[r];
    TakeAbout(s, t, r);
    if run.claimedBy != Some(k) {
      StatementIgnored(s, t, r);
      RejoinsAlone(s1, r, Busy(t));
    } else {
      InvThread(s, {}, Nobody, t);
      assert MessageOK(s.runs, s.threads[t], t, s.threads[t].inbox[0]);
      HeardNext(s, t, r);
      assert HolderSpeaks(s, s1, t, r, k, c);
      if c.FinishStream? { FinishKeeps(s, s1, t, r, k); }
      else if Malformed(c.event) { PoisonKeeps(s, s1, t, r, k, c); }
      else { RelayKeeps(s, s1, t, r, k, c); }
    }
  }

  /** The holder speaks: `s1` is the state with its words heard. */
  ghost predicate HolderSpeaks(s: State, s1: State, t: ThreadId, r: RunId, k: Key, c: Command) {
    && Reads(s, t, r) && s.threads[t].inbox[0] == Said(r, k, c) && s.runs[r].claimedBy == Some(k)
    && s1 == SetRun(Pop(s, t), r, HeardMore(s.runs[r], Said(r, k, c))) && Inv(s1, {r}, Busy(t))
    && s1.runs[r].heard <= s1.runs[r].posted && Heard(r, s1.runs[r], s.threads[t].inbox[1..])
  }

  lemma FinishKeeps(s: State, s1: State, t: ThreadId, r: RunId, k: Key)
    requires HolderSpeaks(s, s1, t, r, k, FinishStream)
    ensures Inv(RecordAndMaybeSettle(s1, t, r, FinishStream), {}, Busy(t))
  {
    hide Inv, DoneShape, Fits, HeldBy;
    RunShapeOf(s, r);
    assert s1.runs[r].(heard := s.runs[r].heard) == s.runs[r];
    TakenEnds(r, s1.runs[r], k, s.runs[r].heard, FinishStream);
    LogAndSettle(s1, t, r, FinishStream, Busy(t));
  }

  lemma PoisonKeeps(s: State, s1: State, t: ThreadId, r: RunId, k: Key, c: Command)
    requires HolderSpeaks(s, s1, t, r, k, c) && c.RelayEvent? && Malformed(c.event)
    ensures Inv(RecordAndMaybeSettle(s1, t, r, c), {}, Busy(t))
  {
    hide Inv, DoneShape, Fits, HeldBy;
    RunShapeOf(s, r);
    assert s1.runs[r].(heard := s.runs[r].heard) == s.runs[r];
    PoisonEnds(r, s1.runs[r], k, s.runs[r].heard, c);
    LogKeeps(s1, r, c, Busy(t));
    LogAndSettle(Log(s1, r, c), t, r, Fail(ProviderSentMalformedEvent, POISON), Busy(t));
  }

  lemma RelayKeeps(s: State, s1: State, t: ThreadId, r: RunId, k: Key, c: Command)
    requires HolderSpeaks(s, s1, t, r, k, c) && c.RelayEvent? && !Malformed(c.event)
    ensures Inv(RecordAndMaybeSettle(s1, t, r, c), {}, Busy(t))
  {
    hide Inv, Fits;
    ReportFits(r, s.runs[r], s.threads[t], s.runs[r].agent in s.serving, Slack(s, s.runs[r]), k, c);
    LogKeeps(s1, r, c, Busy(t));
    RejoinsAlone(Log(s1, r, c), r, Busy(t));
  }

  // ---- verdicts -------------------------------------------------------------------------

  function Closed(run: Run): Run {
    run.(verdictOpen := false, clockDue := false)
  }

  /** A verdict the owner was waiting for: `s1` is the state with it heard and closed. */
  ghost predicate VerdictIn(s: State, s1: State, t: ThreadId, r: RunId, k: Key, v: Verdict) {
    && Reads(s, t, r) && s.threads[t].inbox[0] == Answered(r, k, v)
    && s.runs[r].verdictOpen && s.runs[r].offeredTo == Some(k) && UnderOffer(s.runs[r])
    && s1 == SetRun(Pop(s, t), r, Closed(HeardMore(s.runs[r], Answered(r, k, v)))) && Inv(s1, {r}, Busy(t))
    && s1.runs[r].heard <= s1.runs[r].posted && Heard(r, s1.runs[r], s.threads[t].inbox[1..])
    && !Marked(s1.ledger, r)
  }

  /** Nobody took it: with the place given back, the run ends with `c`. */
  lemma UntakenKeeps(s: State, t: ThreadId, r: RunId, c: Command)
    requires Inv(s, {r}, Freeing(t)) && t in s.threads && r in s.runs
    requires c.Fail? || c.RequestCancel?
    requires var run := s.runs[r];
             && run.heard <= run.posted && run.claimedBy.None?
             && |run.record| == 1 && IsCommand(run.record[0], None) && run.record[0].command.Offer?
    ensures Inv(EndUntaken(s, t, r, c), {}, Busy(t))
  {
    hide Inv, DoneShape;
    UntakenEnds(r, s.runs[r], c);
    LogAndSettle(s, t, r, c, Freeing(t));
  }

  lemma NoNoise(s: State)
    ensures Noise(s, s)
  {
  }

  lemma NotTakenKeeps(s: State, s1: State, t: ThreadId, r: RunId, k: Key, v: Verdict)
    requires VerdictIn(s, s1, t, r, k, v) && !v.Accepted?
    ensures var s2 := Release(s1, r);
            match v
            case Refused(reason) => Inv(EndUntaken(s2, t, r, Fail(ProviderRefused, reason)), {}, Busy(t))
            case Declined =>
              && Inv(EndUntaken(s2, t, r, RequestCancel), {}, Busy(t))
              && Inv(EndUntaken(NoteMisdeclared(s2, r, k), t, r, Fail(ProviderDeclined, "")), {}, Busy(t))
            case Accepted => true
  {
    hide Inv, Fits, Marked;
    var s2 := Release(s1, r);
    ReleaseKeeps(s1, r, {r}, t);
    match v {
      case Refused(reason) => UntakenKeeps(s2, t, r, Fail(ProviderRefused, reason));
      case Declined =>
        NoteKeeps(s2, r, k, Misdeclared, {r}, Freeing(t));
        UntakenKeeps(s2, t, r, RequestCancel);
        UntakenKeeps(NoteMisdeclared(s2, r, k), t, r, Fail(ProviderDeclined, ""));
    }
  }

  /** The claim, written behind the verdict it came from. */
  lemma ClaimHolds(r: RunId, run: Run, k: Key)
    requires UnderOffer(run) && run.offeredTo == Some(k)
    ensures HeldBy(r, Claimed(Closed(HeardMore(run, Answered(r, k, Accepted))), k), k)
  {
    var run' := Claimed(Closed(HeardMore(run, Answered(r, k, Accepted))), k);
    assert run'.heard[run'.claimedAt..] == [];
    assert run'.record == run.record + [Did(Claim, Some(k), run.cancelRequested)];
    SpeechGrows(run.record, run'.record[1]);
    assert run.record == [] + [run.record[0]];
    SpeechGrows([], run.record[0]);
  }

  lemma CancelLogged(r: RunId, run: Run, k: Key)
    requires HeldBy(r, run, k)
    ensures HeldBy(r, Logged(run, RequestCancel), k) && CancelRecorded(Logged(run, RequestCancel).record)
  {
    hide Speech, SaidBy, HeldRecord, CancelRecorded;
    var e := Did(RequestCancel, Some(k), run.cancelRequested);
    HeldRecordGrows(run.record, e, k);
    SpeechGrows(run.record, e);
    CancelRecordedGrows(run.record, e);
  }

  lemma HeardThroughNoise(r: RunId, run: Run, a: seq<Message>, b: seq<Message>)
    requires Heard(r, run, a) && NoisyInbox(a, b)
    ensures Heard(r, run, b)
  {
    assert b == a + b[|a|..];
    StatementsAppend(a, b[|a|..], r);
    NoStatements(b[|a|..], r);
  }

  /** A held run fits beside or at the head of its thread. */
  lemma HeldFits(r: RunId, run: Run, k: Key, h: ThreadHandler, served: bool, slack: int)
    requires HeldBy(r, run, k) && r in h.live && Heard(r, run, h.inbox)
    requires if run.isInterjection then r !in h.queue else h.queue != [] && h.queue[0] == r
    requires served || FailIn(h.inbox, r)
    requires run.cancelRequested ==> CancelRecorded(run.record) || CancelAsked(r) in h.inbox || FailIn(h.inbox, r)
    ensures Fits(r, run, h, served, slack)
  {
  }

  lemma OfferedPlace(r: RunId, run: Run, h: ThreadHandler)
    requires Placed(r, run, h) && !Idle(run) && r in h.live
    ensures if run.isInterjection then r !in h.queue else h.queue != [] && h.queue[0] == r
  {
  }

  lemma PlaceOf(s: State, t: ThreadId, r: RunId)
    requires Reads(s, t, r)
    ensures Placed(r, s.runs[r], s.threads[t])
  {
  }

  /** Answered from beyond the roster: the end is posted at once. */
  lemma LeftHolding(s: State, s1: State, t: ThreadId, r: RunId, k: Key)
    requires VerdictIn(s, s1, t, r, k, Accepted)
    ensures var s2 := SetRun(s1, r, Claimed(s1.runs[r], k));
            Inv(Post(s2, r, Trusted(r, Fail(ProviderLeftHoldingIt, ""))), {}, Busy(t))
  {
    hide Inv, Fits, HeldBy, Noise;
    var run2 := Claimed(s1.runs[r], k);
    var s2 := SetRun(s1, r, run2);
    var m := Trusted(r, Fail(ProviderLeftHoldingIt, ""));
    var s3 := Post(s2, r, m);
    var a, b := s1.threads[t].inbox, s3.threads[t].inbox;
    SetRunKeeps(s1, r, run2, {r}, Busy(t));
    PostIsNoise(s2, r, m);
    NoiseKeeps(s2, s3, {r}, Busy(t));
    ClaimHolds(r, s.runs[r], k);
    PlaceOf(s, t, r);
    OfferedPlace(r, s.runs[r], s.threads[t]);
    assert b == a + [m];
    assert IsFail(b[|a|], r);
    HeardThroughNoise(r, run2, a, b);
    HeldFits(r, run2, k, s3.threads[t], run2.agent in s3.serving, Slack(s3, run2));
    RejoinsAlone(s3, r, Busy(t));
  }

  /** The claimed run, once whoever addressed it has been offered beside it. */
  lemma JoinedKeeps(s1: State, s2: State, t: ThreadId, r: RunId, k: Key)
    requires HeadStaysOrSame(s1, s2, t, r) && Inv(s2, {r}, Busy(t)) && r in s1.runs && t in s1.threads
    requires HeldBy(r, s1.runs[r], k) && r in s1.threads[t].live && s1.runs[r].thread == t
    requires Heard(r, s1.runs[r], s1.threads[t].inbox) && s1.runs[r].agent in s1.serving
    requires s1.runs[r].isInterjection ==> r !in s1.threads[t].queue
    requires !Marked(s1.ledger, r)
    ensures Inv(if s1.runs[r].cancelRequested then Log(s2, r, RequestCancel) else s2, {}, Busy(t))
  {
    hide Inv, Fits, HeldBy, Marked;
    var run := s2.runs[r];
    assert !Idle(run) by { HeldIsBusy(r, run, k); }
    HeardThroughNoise(r, run, s1.threads[t].inbox, s2.threads[t].inbox);
    if run.cancelRequested {
      var s3 := Log(s2, r, RequestCancel);
      LogKeeps(s2, r, RequestCancel, Busy(t));
      CancelLogged(r, run, k);
      HeldFits(r, s3.runs[r], k, s3.threads[t], true, Slack(s3, s3.runs[r]));
      RejoinsAlone(s3, r, Busy(t));
    } else {
      HeldFits(r, run, k, s2.threads[t], true, Slack(s2, run));
      RejoinsAlone(s2, r, Busy(t));
    }
  }

  lemma HeldIsBusy(r: RunId, run: Run, k: Key)
    requires HeldBy(r, run, k)
    ensures !Idle(run) && run.claimedBy == Some(k)
  {
  }

  ghost predicate HeadStaysOrSame(s: State, s': State, t: ThreadId, r: RunId) {
    if r in s.runs && s.runs[r].isInterjection then s' == s else HeadStays(s, s', t, r)
  }

  lemma AcceptedKeeps(s: State, s1: State, t: ThreadId, r: RunId, k: Key)
    requires VerdictIn(s, s1, t, r, k, Accepted)
    ensures Inv(OnAccepted(s1, t, r, k), {}, Busy(t))
  {
    hide Inv, Fits, HeldBy;
    var run2 := Claimed(s1.runs[r], k);
    var s2 := SetRun(s1, r, run2);
    if Serving(s2, run2.agent) != run2.offeredConn {
      LeftHolding(s, s1, t, r, k);
    } else {
      SetRunKeeps(s1, r, run2, {r}, Busy(t));
      ClaimHolds(r, s.runs[r], k);
      PlaceOf(s, t, r);
      OfferedPlace(r, s.runs[r], s.threads[t]);
      var s3 := if run2.isInterjection then s2 else ReleaseInterjections(s2, t, r);
      if !run2.isInterjection { ReleaseInterjectionsKeeps(s2, t, r); }
      JoinedKeeps(s2, s3, t, r, k);
    }
  }

  lemma AnsweredKeeps(s: State, t: ThreadId, r: RunId, k: Key, v: Verdict)
    requires Inv(s, {}, Nobody) && Reads(s, t, r) && s.threads[t].inbox[0] == Answered(r, k, v)
    ensures Inv(OnAnswered(Take(s, t), t, r, k, v), {}, Busy(t))
  {
    hide Inv, RunOK, EndUntaken, NoteMisdeclared, OnAccepted, Release, Marked;
    var s1 := Take(s, t);
    TakeAbout(s, t, r);
    if !s.runs[r].verdictOpen || s.runs[r].offeredTo != Some(k) {
      StatementIgnored(s, t, r);
      RejoinsAlone(s1, r, Busy(t));
    } else {
      var s2 := CloseVerdict(s1, r);
      SetRunKeeps(s1, r, Closed(s1.runs[r]), {r}, Busy(t));
      HeardNext(s, t, r);
      RunShapeOf(s, r);
      assert VerdictIn(s, s2, t, r, k, v);
      if v.Accepted? { AcceptedKeeps(s, s2, t, r, k); } else { NotTakenKeeps(s, s2, t, r, k, v); }
    }
  }

  lemma LapsedKeeps(s: State, t: ThreadId, r: RunId, o: nat)
    requires Inv(s, {}, Nobody) && Reads(s, t, r) && s.threads[t].inbox[0] == OfferLapsed(r, o)
    ensures Inv(OnOfferLapsed(Take(s, t), t, r, o), {}, Busy(t))
  {
    hide Inv, RunOK, Marked;
    var s1 := Take(s, t);
    TakeAbout(s, t, r);
    if !s.runs[r].verdictOpen || s.runs[r].offerId != o {
      LeftAlone(s, t, r);
      RejoinsAlone(s1, r, Busy(t));
    } else {
      RunShapeOf(s, r);
      var k := s.runs[r].offeredTo.value;
      var s2 := CloseVerdict(s1, r);
      SetRunKeeps(s1, r, Closed(s1.runs[r]), {r}, Busy(t));
      var s3 := NoteAbnormal(s2, r, k, Unanswered);
      NoteKeeps(s2, r, k, Unanswered, {r}, Busy(t));
      ReleaseKeeps(s3, r, {r}, t);
      UntakenKeeps(Release(s3, r), t, r,
                   if s.runs[r].cancelRequested then RequestCancel else Fail(ProviderDidNotAnswer, ""));
    }
  }

  // ---- cancels, ends, and late deliveries ---------------------------------------------------

  /** What is left of an inbox whose first message asked for a cancel. */
  lemma CancelRead(inbox: seq<Message>, r: RunId, o: nat)
    requires inbox != [] && inbox[0] == CancelAsked(r)
    ensures var rest := inbox[1..];
            && Statements(inbox, r) == Statements(rest, r)
            && (FailIn(inbox, r) ==> FailIn(rest, r))
            && (OfferLapsed(r, o) in inbox ==> OfferLapsed(r, o) in rest)
            && (Queued(r) in inbox ==> Queued(r) in rest)
  {
    assert inbox == [inbox[0]] + inbox[1..];
    if FailIn(inbox, r) { FailInTail(inbox, r); }
  }

  lemma CancelFitsOpen(r: RunId, run: Run, h: ThreadHandler, served: bool, slack: int)
    requires h.inbox != [] && h.inbox[0] == CancelAsked(r) && r in h.live && Fits(r, run, h, served, slack)
    requires run.verdictOpen
    ensures Fits(r, run.(cancelRequested := true), h.(inbox := h.inbox[1..]), served, slack)
  {
    hide Statements, FailIn, CancelRecorded, HeldRecord, Speech, SaidBy;
    CancelRead(h.inbox, r, run.offerId);
  }

  lemma AskedWhileHeld(r: RunId, run: Run, k: Key)
    requires HeldBy(r, run, k)
    ensures HeldBy(r, run.(cancelRequested := true), k)
  {
    hide HeldRecord, Speech, SaidBy;
  }

  lemma CancelFitsHeld(r: RunId, run: Run, h: ThreadHandler, served: bool, slack: int)
    requires h.inbox != [] && h.inbox[0] == CancelAsked(r) && r in h.live && Fits(r, run, h, served, slack)
    requires !run.verdictOpen && run.claimedBy.Some? && HeldBy(r, run, run.claimedBy.value)
    ensures Fits(r, Logged(run.(cancelRequested := true), RequestCancel), h.(inbox := h.inbox[1..]), served, slack)
  {
    hide Statements, FailIn, CancelRecorded, HeldBy;
    CancelRead(h.inbox, r, run.offerId);
    AskedWhileHeld(r, run, run.claimedBy.value);
    CancelLogged(r, run.(cancelRequested := true), run.claimedBy.value);
  }

  lemma CancelFits(r: RunId, run: Run, h: ThreadHandler, served: bool, slack: int)
    requires h.inbox != [] && h.inbox[0] == CancelAsked(r) && r in h.live && Fits(r, run, h, served, slack)
    requires !Idle(run)
    ensures var run' := run.(cancelRequested := true);
            var h' := h.(inbox := h.inbox[1..]);
            Fits(r, if run.verdictOpen then run' else Logged(run', RequestCancel), h', served, slack)
  {
    if run.verdictOpen {
      hide Fits;
      CancelFitsOpen(r, run, h, served, slack);
    } else {
      assert run.claimedBy.Some? && HeldBy(r, run, run.claimedBy.value);
      hide Fits, HeldBy;
      CancelFitsHeld(r, run, h, served, slack);
    }
  }

  lemma CancelWhileWaiting(s: State, t: ThreadId, r: RunId)
    requires Inv(s, {r}, Busy(t)) && t in s.threads && r in s.runs && Waiting(s.runs[r])
    requires s.runs[r].heard <= s.runs[r].posted
    ensures Inv(Settle(Log(s, r, RequestCancel), t, r), {}, Busy(t))
  {
    hide Inv, DoneShape;
    UntakenEnds(r, s.runs[r], RequestCancel);
    LogAndSettle(s, t, r, RequestCancel, Busy(t));
  }

  lemma CancelLater(s: State, s2: State, t: ThreadId, r: RunId)
    requires Reads(s, t, r) && s.threads[t].inbox[0] == CancelAsked(r) && !Idle(s.runs[r])
    requires s2 == SetRun(Pop(s, t), r, s.runs[r].(cancelRequested := true)) && Inv(s2, {r}, Busy(t))
    ensures Inv(if s.runs[r].verdictOpen then s2 else Log(s2, r, RequestCancel), {}, Busy(t))
  {
    hide Inv, Fits;
    var run := s.runs[r];
    CancelFits(r, run, s.threads[t], run.agent in s.serving, Slack(s, run));
    if run.verdictOpen {
      RejoinsAlone(s2, r, Busy(t));
    } else {
      LogKeeps(s2, r, RequestCancel, Busy(t));
      RejoinsAlone(Log(s2, r, RequestCancel), r, Busy(t));
    }
  }

  lemma CancelKeeps(s: State, t: ThreadId, r: RunId)
    requires Inv(s, {}, Nobody) && Reads(s, t, r) && s.threads[t].inbox[0] == CancelAsked(r)
    ensures Inv(OnCancelAsked(Take(s, t), t, r), {}, Busy(t))
  {
    hide Inv, RunOK, Settle, Log;
    var s1 := Take(s, t);
    var run := s.runs[r];
    TakeAbout(s, t, r);
    RunShapeOf(s, r);
    var s2 := SetRun(s1, r, run.(cancelRequested := true));
    SetRunKeeps(s1, r, run.(cancelRequested := true), {r}, Busy(t));
    if Idle(run) { CancelWhileWaiting(s2, t, r); } else { CancelLater(s, s2, t, r); }
  }

  /** funduq's own last word, whatever the run was doing. */
  lemma NotedHeld(r: RunId, run: Run, k: Key)
    requires HeldBy(r, run, k)
    ensures HeldBy(r, run.(notedAbnormal := true), k)
  {
    hide Speech, SaidBy, HeldRecord;
  }

  lemma FailEnds(r: RunId, run: Run, c: Command)
    requires RunShape(r, run) && run.heard <= run.posted && c.Fail?
    ensures DoneShape(r, Ended(Logged(run, c)))
    ensures DoneShape(r, Ended(Logged(run.(notedAbnormal := true), c)))
  {
    if run.claimedBy.Some? {
      var k, noted := run.claimedBy.value, run.(notedAbnormal := true);
      assert HeldBy(r, run, k) by { hide Speech, SaidBy, HeldRecord, DoneShape; }
      hide HeldBy, DoneShape, RunShape, Waiting, UnderOffer;
      NotedHeld(r, run, k);
      assert run.(heard := run.heard) == run && noted.(heard := noted.heard) == noted;
      TakenEnds(r, run, k, run.heard, c);
      TakenEnds(r, noted, k, noted.heard, c);
    } else {
      hide DoneShape, Speech, SaidBy;
      UntakenEnds(r, run, c);
      UntakenEnds(r, run.(notedAbnormal := true), c);
    }
  }

  lemma TrustedEnds(s: State, t: ThreadId, r: RunId, c: Command)
    requires Inv(s, {r}, Busy(t)) && Live(s, t, r) && c.Fail?
    requires !s.runs[r].notedAbnormal ==> !Marked(s.ledger, r)
    requires DoneShape(r, Ended(Logged(s.runs[r], c))) &&
             DoneShape(r, Ended(Logged(s.runs[r].(notedAbnormal := true), c)))
    ensures Inv(OnTrusted(s, t, r, c), {}, Busy(t))
  {
    hide Inv, DoneShape, Marked, RunOK;
    var run := s.runs[r];
    if run.claimedBy.Some? && !run.notedAbnormal {
      var s2 := SetRun(s, r, run.(notedAbnormal := true));
      SetRunKeeps(s, r, run.(notedAbnormal := true), {r}, Busy(t));
      var s3 := NoteAbnormal(s2, r, run.claimedBy.value, Abandoned);
      NoteKeeps(s2, r, run.claimedBy.value, Abandoned, {r}, Busy(t));
      LogAndSettle(s3, t, r, c, Busy(t));
    } else {
      LogAndSettle(s, t, r, c, Busy(t));
    }
  }

  lemma TrustedKeeps(s: State, t: ThreadId, r: RunId, c: Command)
    requires Inv(s, {}, Nobody) && Reads(s, t, r) && s.threads[t].inbox[0] == Trusted(r, c)
    ensures Inv(OnTrusted(Take(s, t), t, r, c), {}, Busy(t))
  {
    hide Inv, RunOK, DoneShape, Marked, OnTrusted;
    TakeAbout(s, t, r);
    RunShapeOf(s, r);
    InvThread(s, {}, Nobody, t);
    assert MessageOK(s.runs, s.threads[t], t, s.threads[t].inbox[0]);
    FailEnds(r, s.runs[r], c);
    hide RunShape, UnderOffer, Waiting, HeldBy, MessageOK, ThreadShape;
    TrustedEnds(Take(s, t), t, r, c);
  }

  lemma NotedFits(r: RunId, run: Run, h: ThreadHandler, served: bool, slack: int)
    requires Fits(r, run, h, served, slack) && run.claimedBy.Some?
    ensures Fits(r, run.(notedAbnormal := true), h, served, slack)
  {
  }

  lemma NotedRun(s: State, s': State, r: RunId)
    requires r in s.runs && RunOK(s, r) && s.runs[r].claimedBy.Some?
    requires s'.runs == s.runs[r := s.runs[r].(notedAbnormal := true)] && s'.threads == s.threads
    requires s'.serving == s.serving && s'.unservedSince == s.unservedSince
    requires s'.lastSweep == s.lastSweep && s'.timeout == s.timeout
    ensures RunOK(s', r)
  {
    hide Fits, Marked;
    NotedFits(r, s.runs[r], s.threads[s.runs[r].thread], s.runs[r].agent in s.serving, Slack(s, s.runs[r]));
  }

  lemma BumpedBooks(s: State, r: RunId, k: Key, c: Counter)
    requires Books(s)
    ensures Books(Bumped(s, r, k, c))
  {
  }

  lemma NoteUndeliveredKeeps(s: State, t: ThreadId, r: RunId)
    requires Inv(s, {r}, Busy(t)) && t in s.threads && r in s.runs && RunOK(s, r) && s.runs[r].claimedBy.Some?
    requires !Marked(s.ledger, r)
    ensures var s' := NoteAbnormal(SetRun(s, r, s.runs[r].(notedAbnormal := true)), r, s.runs[r].claimedBy.value,
                                   Undeliverable);
            Inv(s', {}, Busy(t))
  {
    hide Inv, RunOK, Marked, Noise, Books;
    var run := s.runs[r];
    var s2 := SetRun(s, r, run.(notedAbnormal := true));
    SetRunKeeps(s, r, run.(notedAbnormal := true), {r}, Busy(t));
    NoteKeeps(s2, r, run.claimedBy.value, Undeliverable, {r}, Busy(t));
    NotedRun(s, Bumped(s2, r, run.claimedBy.value, Undeliverable), r);
    InvBooks(s2, {r}, Busy(t));
    BumpedBooks(s2, r, run.claimedBy.value, Undeliverable);
    NoteIsBumpAndNoise(s2, r, run.claimedBy.value, Undeliverable);
    NoiseKeepsRun(Bumped(s2, r, run.claimedBy.value, Undeliverable),
                  NoteAbnormal(s2, r, run.claimedBy.value, Undeliverable), r);
    RejoinsAlone(NoteAbnormal(s2, r, run.claimedBy.value, Undeliverable), r, Busy(t));
  }

  lemma UndeliveredKeeps(s: State, t: ThreadId, r: RunId)
    requires Inv(s, {}, Nobody) && Reads(s, t, r) && s.threads[t].inbox[0] == Undelivered(r)
    ensures Inv(OnUndelivered(Take(s, t), t, r), {}, Busy(t))
  {
    hide Inv, RunOK, Marked;
    TakeAbout(s, t, r);
    LeftAlone(s, t, r);
    RunShapeOf(s, r);
    hide RunShape, HeldBy, UnderOffer, Waiting, NoteAbnormal;
    if s.runs[r].claimedBy.None? || s.runs[r].notedAbnormal {
      RejoinsAlone(Take(s, t), r, Busy(t));
    } else {
      NoteUndeliveredKeeps(Take(s, t), t, r);
    }
  }

  lemma InvBooks(s: State, x: set<RunId>, busy: Focus)
    requires Inv(s, x, busy)
    ensures Books(s)
  {
  }

  // ---- a new run ------------------------------------------------------------------------------

  function TakenIn(s: State, t: ThreadId, r: RunId): State
    requires t in s.threads
  {
    s.(threads := s.threads[t := s.threads[t].(live := s.threads[t].live + {r})])
  }

  lemma TakenInThread(runs: map<RunId, Run>, h: ThreadHandler, t: ThreadId, r: RunId)
    requires ThreadShape(runs, h, t) && h.inbox != [] && h.inbox[0] == Queued(r)
    ensures ThreadShape(runs, h.(inbox := h.inbox[1..], live := h.live + {r}), t)
    ensures r in runs && runs[r].thread == t && r !in h.live && r !in h.queue
  {
    assert MessageOK(runs, h, t, h.inbox[0]);
    var h' := h.(inbox := h.inbox[1..], live := h.live + {r});
    PoppedShape(runs, h, t);
    forall i | 0 <= i < |h'.inbox| ensures MessageOK(runs, h', t, h'.inbox[i]) {
      assert h'.inbox[i] == h.inbox[i + 1] && MessageOK(runs, h, t, h.inbox[i + 1]);
      assert h.inbox[i + 1].Queued? ==> !About(h.inbox[0], h.inbox[i + 1].run);
    }
  }

  lemma TakenInRuns(s: State, t: ThreadId, r: RunId)
    requires t in s.threads && RunsOK(s, {r})
    ensures RunsOK(TakenIn(s, t, r), {r})
  {
    var s' := TakenIn(s, t, r);
    forall q | q in s'.runs && q !in {r} ensures RunOK(s', q) { assert RunOK(s, q); }
  }

  lemma TakenInRested(s: State, t: ThreadId, r: RunId)
    requires t in s.threads && Rested(s, Busy(t)) && Books(s)
    ensures Rested(TakenIn(s, t, r), Busy(t)) && Books(TakenIn(s, t, r))
  {
    var s' := TakenIn(s, t, r);
    forall u | u in s'.threads && u != t ensures Alive(s'.threads[u]) && Awake(s', u) { assert Awake(s, u); }
  }

  lemma TakenInThreads(s: State, t: ThreadId, r: RunId)
    requires t in s.threads && ThreadsOK(s.runs, s.threads) && s.threads[t].inbox != [] &&
             s.threads[t].inbox[0] == Queued(r)
    ensures var s' := TakenIn(Pop(s, t), t, r);
            ThreadsOK(s'.runs, s'.threads) && Working(s'.runs, s'.threads, {r}, Busy(t))
    ensures r in s.runs && s.runs[r].thread == t && r !in s.threads[t].live && r !in s.threads[t].queue
  {
    var s' := TakenIn(Pop(s, t), t, r);
    TakenInThread(s.runs, s.threads[t], t, r);
    forall u | u in s'.threads ensures ThreadShape(s'.runs, s'.threads[u], u) {
      assert ThreadShape(s.runs, s.threads[u], u);
    }
  }

  lemma TakenInLines(s: State, t: ThreadId, r: RunId)
    requires t in s.threads && Lines(s.runs, s.threads)
    ensures Lines(TakenIn(s, t, r).runs, TakenIn(s, t, r).threads)
  {
    var s' := TakenIn(s, t, r);
    forall u | u in s'.threads ensures InLine(s'.runs, s'.threads[u]) {
      assert InLine(s.runs, s.threads[u]);
      InLineWithout(s.runs, s.threads[u], s'.threads[u], r);
    }
  }

  lemma TakenInKeeps(s: State, t: ThreadId, r: RunId)
    requires Inv(s, {}, Nobody) && t in s.threads && s.threads[t].inbox != [] && s.threads[t].inbox[0] == Queued(r)
    ensures Inv(TakenIn(Pop(s, t), t, r), {r}, Busy(t))
    ensures r in s.runs && s.runs[r].thread == t && r !in s.threads[t].live && r !in s.threads[t].queue
  {
    hide Books, Roster, Capacity, Working, ThreadsOK, Rested, RunsOK, DoneOK, Ledger, Lines, OffersOK;
    PopRuns(s, t, {r});
    PopThreads(s, t);
    PopLines(s, t);
    TakenInRuns(Pop(s, t), t, r);
    TakenInRested(Pop(s, t), t, r);
    TakenInThreads(s, t, r);
    TakenInLines(Pop(s, t), t, r);
  }

  lemma NewIsReady(r: RunId, run: Run, h: ThreadHandler, served: bool, slack: int)
    requires Fits(r, run, h, served, slack) && r !in h.live && h.inbox != [] && h.inbox[0] == Queued(r)
    ensures Waiting(run) && CancelKept(r, run, h.inbox[1..]) && Heard(r, run, h.inbox[1..])
    ensures NotOverdue(r, run, h.inbox[1..], served, slack)
  {
    var inbox, rest := h.inbox, h.inbox[1..];
    assert inbox == [inbox[0]] + rest;
    assert Statements(inbox, r) == Statements(rest, r);
    if FailIn(inbox, r) { FailInTail(inbox, r); }
  }

  lemma AppendRearranges(q: seq<RunId>, r: RunId)
    requires Distinct(q) && r !in q
    ensures Rearranged(q, q + [r], r)
  {
    assert forall x :: x in q + [r] <==> x in q || x == r;
  }

  lemma NewRun(s: State, t: ThreadId, r: RunId)
    requires Inv(s, {}, Nobody) && t in s.threads && s.threads[t].inbox != [] && s.threads[t].inbox[0] == Queued(r)
    ensures var s1 := TakenIn(Pop(s, t), t, r);
            && Inv(s1, {r}, Busy(t)) && Ready(s1, t, r) && r !in s1.threads[t].queue && Distinct(s1.threads[t].queue)
            && InLine(s1.runs, s1.threads[t].(queue := s1.threads[t].queue + [r]))
  {
    hide Inv, Fits, InLine, Clean;
    InvLine(s, {}, Nobody, t);
    InLineAppends(s.runs, s.threads[t], r);
    InLineWithout(s.runs, s.threads[t].(inbox := s.threads[t].inbox[1..], queue := s.threads[t].queue + [r]),
                  s.threads[t].(inbox := s.threads[t].inbox[1..], queue := s.threads[t].queue + [r],
                                live := s.threads[t].live + {r}), r);
    TakenInKeeps(s, t, r);
    InvRun(s, {}, Nobody, r);
    NewIsReady(r, s.runs[r], s.threads[t], s.runs[r].agent in s.serving, Slack(s, s.runs[r]));
    InvThread(TakenIn(Pop(s, t), t, r), {r}, Busy(t), t);
  }

  lemma InLineAppends(runs: map<RunId, Run>, h: ThreadHandler, r: RunId)
    requires InLine(runs, h) && h.inbox != [] && h.inbox[0] == Queued(r)
    ensures InLine(runs, h.(inbox := h.inbox[1..], queue := h.queue + [r]))
  {
    var rest, q := h.inbox[1..], h.queue + [r];
    assert forall i :: 0 <= i < |rest| ==> rest[i] == h.inbox[i + 1];
    assert forall i :: 0 <= i < |q| ==> q[i] == if i < |h.queue| then h.queue[i] else h.inbox[0].run;
  }

  /** A run that is nobody's interjection waits at the end of the queue. */
  lemma AppendKeeps(s: State, t: ThreadId, r: RunId)
    requires Inv(s, {r}, Busy(t)) && Ready(s, t, r) && r in s.threads[t].live
    requires r !in s.threads[t].queue && Distinct(s.threads[t].queue)
    requires InLine(s.runs, s.threads[t].(queue := s.threads[t].queue + [r]))
    ensures Inv(WithQueue(s, t, s.threads[t].queue + [r]), {}, Busy(t))
  {
    hide Inv;
    var q := s.threads[t].queue + [r];
    AppendRearranges(s.threads[t].queue, r);
    RearrangedKeeps(s, t, q, r, {r});
    WaitingFits(WithQueue(s, t, q), t, r);
    RejoinsAlone(WithQueue(s, t, q), r, Busy(t));
  }

  lemma QueuedKeeps(s: State, t: ThreadId, r: RunId)
    requires Inv(s, {}, Nobody) && t in s.threads && s.threads[t].inbox != [] && s.threads[t].inbox[0] == Queued(r)
    ensures Inv(OnQueued(Take(s, t), t, r), {}, Busy(t))
  {
    hide Inv, Ready, OfferTo;
    NewRun(s, t, r);
    var s1 := TakenIn(Pop(s, t), t, r);
    assert r in s.runs && Take(s, t) == Pop(s, t) by { TakenInKeeps(s, t, r); }
    var q := s.threads[t].queue;
    if q != [] && q[0] in s.runs && s.runs[q[0]].claimedBy.Some? && s.runs[r].addressed == Some(q[0]) {
      assert {} + {r} == {r};
      OfferKeeps(s1, t, r, true, {});
    } else {
      AppendKeeps(s1, t, r);
    }
  }

  // ---- and then the turn --------------------------------------------------------------------

  /** Everything in a queue is unsettled, so nothing is ever dropped from its front. */
  lemma NothingToDrop(s: State, x: set<RunId>, busy: Focus, t: ThreadId)
    requires Inv(s, x, busy) && t in s.threads
    ensures DropSettled(s.runs, s.threads[t].queue) == s.threads[t].queue
    ensures s.threads[t].queue != [] ==>
              var head := s.threads[t].queue[0];
              head in s.runs && head in s.threads[t].live && s.runs[head].thread == t
  {
    hide Inv, ThreadShape;
    InvThread(s, x, busy, t);
  }

  lemma IdleIsReady(s: State, t: ThreadId, r: RunId)
    requires t in s.threads && r in s.runs && s.runs[r].thread == t && RunOK(s, r) && Idle(s.runs[r])
    ensures Ready(s, t, r)
  {
  }

  lemma AdvanceKeeps(s: State, t: ThreadId)
    requires Inv(s, {}, Busy(t)) && t in s.threads
    ensures Inv(Advance(s, t), {}, Busy(t))
    ensures t in Advance(s, t).threads && Awake(Advance(s, t), t)
  {
    hide Inv, Ready, OfferTo;
    NothingToDrop(s, {}, Busy(t), t);
    var q := s.threads[t].queue;
    assert WithQueue(s, t, q) == s;
    if q != [] && Idle(s.runs[q[0]]) {
      InvRun(s, {}, Busy(t), q[0]);
      IdleIsReady(s, t, q[0]);
      assert {} + {q[0]} == {q[0]};
      Exempts(s, t, q[0], {});
      OfferKeeps(s, t, q[0], false, {});
      OfferedHeadIsAwake(s, t, q[0]);
    }
  }

  lemma RetiredRuns(s: State, t: ThreadId)
    requires RunsOK(s, {}) && t in s.threads && s.threads[t].live == {} && s.threads[t].inbox == []
    ensures RunsOK(s.(threads := s.threads - {t}), {})
  {
    var s' := s.(threads := s.threads - {t});
    forall q | q in s'.runs && q !in {} ensures RunOK(s', q) {
      assert RunOK(s, q);
      assert s.runs[q].thread != t;
    }
  }

  lemma RetiredThreads(s: State, t: ThreadId)
    requires ThreadsOK(s.runs, s.threads) && Rested(s, Busy(t)) && t in s.threads && Books(s)
    ensures var s' := s.(threads := s.threads - {t}); ThreadsOK(s'.runs, s'.threads) && Rested(s', Nobody) && Books(s')
    ensures Awake(s, t) && Alive(s.threads[t]) ==> Rested(s, Nobody)
  {
    var s' := s.(threads := s.threads - {t});
    forall u | u in s'.threads ensures ThreadShape(s'.runs, s'.threads[u], u) && Alive(s'.threads[u]) && Awake(s', u) {
      assert ThreadShape(s.runs, s.threads[u], u) && Awake(s, u);
    }
  }

  lemma RetiredLines(runs: map<RunId, Run>, threads: map<ThreadId, ThreadHandler>, t: ThreadId)
    requires Lines(runs, threads)
    ensures Lines(runs, threads - {t})
  {
  }

  lemma RetireKeeps(s: State, t: ThreadId)
    requires Inv(s, {}, Busy(t)) && t in s.threads && Awake(s, t)
    ensures Inv(Retire(s, t), {}, Nobody)
  {
    hide Books, Roster, Capacity, ThreadsOK, Rested, RunsOK, DoneOK, Ledger, Lines, OffersOK;
    RetiredThreads(s, t);
    assert Lines(s.runs, s.threads - {t}) by { RetiredLines(s.runs, s.threads, t); }
    if s.threads[t].live == {} && s.threads[t].inbox == [] { RetiredRuns(s, t); }
  }

  predicate Stray(h: ThreadHandler) {
    h.inbox != [] && (h.inbox[0].Poke? || (!h.inbox[0].Queued? && h.inbox[0].run !in h.live))
  }

  /** A message about a run nobody tracks here, or about nothing at all. */
  lemma StrayDoesNothing(s: State, t: ThreadId)
    requires t in s.threads && Stray(s.threads[t])
    ensures OnMessage(Take(s, t), t, s.threads[t].inbox[0]) == Pop(s, t)
  {
  }

  lemma StrayKeeps(s: State, t: ThreadId)
    requires Inv(s, {}, Nobody) && t in s.threads && Stray(s.threads[t])
    ensures Inv(Pop(s, t), {}, Busy(t))
  {
    hide Inv;
    forall q | q in s.runs && s.runs[q].thread == t ensures !About(s.threads[t].inbox[0], q) {
      if About(s.threads[t].inbox[0], q) { AboutLive(s, t, q); }
    }
    PopKeeps(s, t);
  }

  lemma MessageKeeps(s: State, t: ThreadId)
    requires Inv(s, {}, Nobody) && t in s.threads && s.threads[t].inbox != []
    ensures Inv(OnMessage(Take(s, t), t, s.threads[t].inbox[0]), {}, Busy(t))
  {
    hide Inv, RunOK, OnQueued, OnAnswered, OnSaid, OnTrusted, OnCancelAsked, OnOfferLapsed, OnUndelivered;
    var m := s.threads[t].inbox[0];
    if m.Queued? {
      QueuedKeeps(s, t, m.run);
    } else if m.Poke? || m.run !in s.threads[t].live {
      StrayDoesNothing(s, t);
      StrayKeeps(s, t);
    } else {
      InvThread(s, {}, Nobody, t);
      InvRun(s, {}, Nobody, m.run);
      match m {
        case Answered(r, k, v) => AnsweredKeeps(s, t, r, k, v);
        case Said(r, k, c) => SaidKeeps(s, t, r, k, c);
        case Trusted(r, c) => TrustedKeeps(s, t, r, c);
        case CancelAsked(r) => CancelKeeps(s, t, r);
        case OfferLapsed(r, o) => LapsedKeeps(s, t, r, o);
        case Undelivered(r) => UndeliveredKeeps(s, t, r);
        case _ => 
      }
    }
  }

  /** An owner's whole step: read one message, then look at the turn, then leave or wait. */
  lemma OwnerStepKeeps(s: State, t: ThreadId)
    requires Inv(s, {}, Nobody) && t in s.threads && s.threads[t].inbox != []
    ensures Inv(OwnerStep(s, t), {}, Nobody)
  {
    hide Inv, OnMessage, Advance, Retire;
    var s1 := OnMessage(Take(s, t), t, s.threads[t].inbox[0]);
    MessageKeeps(s, t);
    AdvanceKeeps(s1, t);
    RetireKeeps(Advance(s1, t), t);
  }
}
