/** What becomes of a cancel asked for while a verdict is out, step by step. */
module BrokerCancel {
  import opened Vocabulary
  import opened BrokerSpec
  import opened BrokerInvariant
  import opened BrokerNoise
  import opened BrokerSteps
  import opened BrokerOwner
  import opened BrokerSystem
  import opened BrokerHistory
  import opened BrokerConduct

  // ---- what an owner's work leaves alone -----------------------------------------------------

  /** Of the runs offered or held, only those in `q` were touched, and inboxes only grew. */
  ghost predicate Spares(s: State, s': State, q: set<RunId>) {
    var holds :=
      && (forall r :: r in s.runs && r !in q && !Idle(s.runs[r]) ==> r in s'.runs && s'.runs[r] == s.runs[r])
      && s'.threads.Keys == s.threads.Keys
      && (forall t :: t in s.threads ==> s.threads[t].inbox <= s'.threads[t].inbox);
    holds
  }

  lemma SparesOn(a: State, b: State, c: State, q: set<RunId>)
    requires Spares(a, b, q) && Spares(b, c, q)
    ensures Spares(a, c, q)
  {
  }

  lemma SparesMore(s: State, s': State, p: set<RunId>, q: set<RunId>)
    requires Spares(s, s', p) && p <= q
    ensures Spares(s, s', q)
  {
  }

  lemma SparesAll(s: State)
    ensures Spares(s, s, {})
  {
  }

  lemma NoiseSpares(s: State, s': State)
    requires Noise(s, s')
    ensures Spares(s, s', {})
  {
  }

  lemma SetSpares(s: State, r: RunId, run: Run)
    ensures Spares(s, SetRun(s, r, run), {r})
  {
  }

  lemma QueueSpares(s: State, s': State)
    requires s'.runs == s.runs && s'.threads.Keys == s.threads.Keys
    requires forall t :: t in s.threads ==> s'.threads[t].inbox == s.threads[t].inbox
    ensures Spares(s, s', {})
  {
  }

  lemma {:induction false} PostSpares(s: State, r: RunId, m: Message)
    ensures Spares(s, Post(s, r, m), {})
  {
    var s' := Post(s, r, m);
    forall t | t in s.threads ensures t in s'.threads && s.threads[t].inbox <= s'.threads[t].inbox {
      assert s'.threads[t] == s.threads[t] || s'.threads[t].inbox == s.threads[t].inbox + [m];
    }
  }

  lemma ReleaseSpares(s: State, r: RunId)
    requires r in s.runs
    ensures Spares(s, Release(s, r), {r})
  {
  }

  lemma VacatedSpares(s: State, t: ThreadId, r: RunId)
    requires t in s.threads && r in s.runs
    ensures Spares(s, Vacated(s, t, r), {r})
  {
  }

  lemma SettleSpares(s: State, t: ThreadId, r: RunId)
    requires t in s.threads && r in s.runs
    ensures Spares(s, Settle(s, t, r), {r})
  {
    hide Spares, Vacated;
    SettleIs(s, t, r);
    VacatedSpares(s, t, r);
    PokeAllIsNoise(Vacated(s, t, r));
    NoiseSpares(Vacated(s, t, r), Settle(s, t, r));
    SparesMore(Vacated(s, t, r), Settle(s, t, r), {}, {r});
    SparesOn(s, Vacated(s, t, r), Settle(s, t, r), {r});
  }

  lemma LogSpares(s: State, r: RunId, c: Command)
    ensures Spares(s, Log(s, r, c), {r})
  {
    hide Spares;
    if r in s.runs {
      SetSpares(s, r, Logged(s.runs[r], c));
    } else {
      SparesAll(s);
      SparesMore(s, s, {}, {r});
    }
  }

  lemma LogAndSettleSpares(s: State, t: ThreadId, r: RunId, c: Command)
    requires t in s.threads && r in s.runs
    ensures Spares(s, Settle(Log(s, r, c), t, r), {r})
  {
    hide Spares, Settle;
    LogSpares(s, r, c);
    SettleSpares(Log(s, r, c), t, r);
    SparesOn(s, Log(s, r, c), Settle(Log(s, r, c), t, r), {r});
  }

  lemma UntakenSpares(s: State, t: ThreadId, r: RunId, c: Command)
    requires t in s.threads && r in s.runs
    ensures Spares(s, EndUntaken(Release(s, r), t, r, c), {r})
  {
    hide Spares, Settle;
    ReleaseSpares(s, r);
    LogAndSettleSpares(Release(s, r), t, r, c);
    SparesOn(s, Release(s, r), EndUntaken(Release(s, r), t, r, c), {r});
  }

  lemma OfferedSpares(s: State, r: RunId, c: Connection, interjection: bool)
    requires r in s.runs
    ensures Spares(s, Offered(s, r, c, interjection), {r})
  {
  }

  lemma OfferSpares(s: State, t: ThreadId, r: RunId, interjection: bool)
    requires t in s.threads && r in s.runs
    ensures Spares(s, OfferTo(s, t, r, interjection), {r})
  {
    hide Spares, Settle, Offered;
    if !CanOffer(s, s.runs[r].agent) {
      QueueSpares(s, OfferTo(s, t, r, interjection));
      SparesMore(s, OfferTo(s, t, r, interjection), {}, {r});
    } else if !s.runs[r].validInput {
      LogAndSettleSpares(s, t, r, Fail(InputDoesNotValidate, INVALID_INPUT));
    } else {
      OfferedSpares(s, r, Serving(s, s.runs[r].agent).value, interjection);
    }
  }

  /** A run that is waiting is nobody's to spare. */
  lemma IdleIsNobodys(s: State, s': State, r: RunId)
    requires Spares(s, s', {r}) && r in s.runs && Idle(s.runs[r])
    ensures Spares(s, s', {})
  {
  }

  ghost predicate AllWait(s: State, ids: seq<RunId>) {
    forall i :: 0 <= i < |ids| && ids[i] in s.runs ==> Idle(s.runs[ids[i]])
  }

  lemma {:induction false} JoinEachSpares(s: State, t: ThreadId, ids: seq<RunId>)
    requires AllWait(s, ids) && Distinct(ids)
    ensures Spares(s, JoinEach(s, t, ids), {})
    decreases |ids|
  {
    hide Spares, OfferTo, AllWait;
    SparesAll(s);
    if ids != [] {
      var r, s1 := ids[0], JoinOne(s, t, ids[0]);
      WaitApart(s, ids);
      hide Distinct;
      if t in s.threads && r in s.runs {
        var s0 := WithQueue(s, t, RemoveFirst(s.threads[t].queue, r));
        QueueSpares(s, s0);
        OfferSpares(s0, t, r, true);
        IdleIsNobodys(s0, s1, r);
        SparesOn(s, s0, s1, {});
        SameWait(s, s0, ids[1..]);
        OthersStillWait(s0, t, r, true, ids[1..]);
      }
      JoinEachSpares(s1, t, ids[1..]);
      SparesOn(s, s1, JoinEach(s, t, ids), {});
    }
  }

  lemma WaitApart(s: State, ids: seq<RunId>)
    requires AllWait(s, ids) && Distinct(ids) && ids != []
    ensures AllWait(s, ids[1..]) && Distinct(ids[1..]) && ids[0] !in ids[1..]
    ensures ids[0] in s.runs ==> Idle(s.runs[ids[0]])
  {
  }

  lemma SameWait(s: State, s': State, ids: seq<RunId>)
    requires AllWait(s, ids) && s'.runs == s.runs
    ensures AllWait(s', ids)
  {
  }

  lemma OthersStillWait(s: State, t: ThreadId, r: RunId, interjection: bool, ids: seq<RunId>)
    requires t in s.threads && r in s.runs && AllWait(s, ids) && r !in ids
    ensures AllWait(OfferTo(s, t, r, interjection), ids)
  {
    hide Settle;
    if CanOffer(s, s.runs[r].agent) && !s.runs[r].validInput {
      LogAndSettleIs(s, t, r, Fail(InputDoesNotValidate, INVALID_INPUT));
    }
  }

  lemma JoinersWait(s: State, t: ThreadId, r: RunId, k: Key)
    requires TailWaits(s, t) && Distinct(s.threads[t].queue) && r in s.runs && !Idle(s.runs[r])
    ensures var s1 := SetRun(s, r, Claimed(s.runs[r], k));
            var q := s1.threads[t].queue;
            var ids := Joining(s1.runs, if q == [] then [] else q[1..], r);
            AllWait(s1, ids) && Distinct(ids)
  {
    var s1 := SetRun(s, r, Claimed(s.runs[r], k));
    var q := s.threads[t].queue;
    var tail := if q == [] then [] else q[1..];
    JoiningAreQueued(s1.runs, tail, r);
    var ids := Joining(s1.runs, tail, r);
    forall i | 0 <= i < |ids| && ids[i] in s1.runs ensures Idle(s1.runs[ids[i]]) {
      assert ids[i] in ids && ids[i] in tail;
    }
  }

  // ---- one message ----------------------------------------------------------------------------

  lemma AcceptedSpares(s: State, t: ThreadId, r: RunId, k: Key)
    requires TailWaits(s, t) && Distinct(s.threads[t].queue) && r in s.runs && !Idle(s.runs[r])
    ensures Spares(s, OnAccepted(s, t, r, k), {r})
  {
    hide Spares, JoinEach, Log, Post, Joining, Claimed;
    var s1 := SetRun(s, r, Claimed(s.runs[r], k));
    SetSpares(s, r, Claimed(s.runs[r], k));
    if Serving(s1, s1.runs[r].agent) != s1.runs[r].offeredConn {
      PostSpares(s1, r, Trusted(r, Fail(ProviderLeftHoldingIt, "")));
      SparesMore(s1, OnAccepted(s, t, r, k), {}, {r});
      SparesOn(s, s1, OnAccepted(s, t, r, k), {r});
    } else {
      var q := s1.threads[t].queue;
      var s2 := if s1.runs[r].isInterjection then s1 else ReleaseInterjections(s1, t, r);
      JoinersWait(s, t, r, k);
      JoinEachSpares(s1, t, Joining(s1.runs, if q == [] then [] else q[1..], r));
      SparesAll(s1);
      SparesMore(s1, s2, {}, {r});
      SparesOn(s, s1, s2, {r});
      LogSpares(s2, r, RequestCancel);
      SparesOn(s, s2, Log(s2, r, RequestCancel), {r});
    }
  }

  lemma NoteSpares(s: State, r: RunId, k: Key, c: Counter)
    ensures Spares(s, NoteAbnormal(s, r, k, c), {})
  {
    NoteIsBumpAndNoise(s, r, k, c);
    NoiseSpares(Bumped(s, r, k, c), NoteAbnormal(s, r, k, c));
  }

  lemma MisdeclaredSpares(s: State, t: ThreadId, r: RunId, k: Key)
    requires t in s.threads && r in s.runs
    ensures Spares(s, EndUntaken(NoteMisdeclared(Release(s, r), r, k), t, r, Fail(ProviderDeclined, "")), {r})
  {
    hide Spares, Settle, NoteAbnormal;
    var s1 := Release(s, r);
    var s2 := NoteMisdeclared(s1, r, k);
    ReleaseSpares(s, r);
    NoteSpares(s1, r, k, Misdeclared);
    SparesAll(s1);
    SparesMore(s1, s2, {}, {r});
    SparesOn(s, s1, s2, {r});
    LogAndSettleSpares(s2, t, r, Fail(ProviderDeclined, ""));
    SparesOn(s, s2, EndUntaken(s2, t, r, Fail(ProviderDeclined, "")), {r});
  }

  lemma AnsweredSpares(s: State, t: ThreadId, r: RunId, k: Key, v: Verdict)
    requires TailWaits(s, t) && Distinct(s.threads[t].queue)
    ensures Spares(s, OnAnswered(s, t, r, k, v), {r})
  {
    hide Spares, EndUntaken, NoteMisdeclared, OnAccepted, Release;
    var s' := OnAnswered(s, t, r, k, v);
    SparesAll(s);
    SparesMore(s, s, {}, {r});
    if Live(s, t, r) && s.runs[r].verdictOpen && s.runs[r].offeredTo == Some(k) {
      var s1 := CloseVerdict(s, r);
      SetSpares(s, r, s1.runs[r]);
      match v {
        case Refused(reason) => UntakenSpares(s1, t, r, Fail(ProviderRefused, reason));
        case Declined =>
          UntakenSpares(s1, t, r, RequestCancel);
          MisdeclaredSpares(s1, t, r, k);
        case Accepted => AcceptedSpares(s1, t, r, k);
      }
      SparesOn(s, s1, s', {r});
    }
  }

  lemma LapsedSpares(s: State, t: ThreadId, r: RunId, o: nat)
    requires t in s.threads
    ensures Spares(s, OnOfferLapsed(s, t, r, o), {r})
  {
    hide Spares, EndUntaken, Release, NoteAbnormal;
    var s' := OnOfferLapsed(s, t, r, o);
    SparesAll(s);
    SparesMore(s, s, {}, {r});
    if Live(s, t, r) && s.runs[r].verdictOpen && s.runs[r].offerId == o {
      var s1 := CloseVerdict(s, r);
      SetSpares(s, r, s1.runs[r]);
      var s2 := if s.runs[r].offeredTo.Some? then NoteAbnormal(s1, r, s.runs[r].offeredTo.value, Unanswered) else s1;
      SparesAll(s1);
      if s.runs[r].offeredTo.Some? { NoteSpares(s1, r, s.runs[r].offeredTo.value, Unanswered); }
      SparesMore(s1, s2, {}, {r});
      SparesOn(s, s1, s2, {r});
      UntakenSpares(s2, t, r, if s.runs[r].cancelRequested then RequestCancel else Fail(ProviderDidNotAnswer, ""));
      SparesOn(s, s2, s', {r});
    }
  }

  lemma RecordSpares(s: State, t: ThreadId, r: RunId, c: Command)
    requires t in s.threads && r in s.runs
    ensures Spares(s, RecordAndMaybeSettle(s, t, r, c), {r})
  {
    hide Spares, Settle;
    var s1 := Log(s, r, c);
    LogSpares(s, r, c);
    LogAndSettleSpares(s1, t, r, Fail(ProviderSentMalformedEvent, POISON));
    SparesOn(s, s1, Settle(Log(s1, r, Fail(ProviderSentMalformedEvent, POISON)), t, r), {r});
    LogAndSettleSpares(s, t, r, c);
  }

  lemma CancelSpares(s: State, t: ThreadId, r: RunId)
    requires t in s.threads
    ensures Spares(s, OnCancelAsked(s, t, r), {r})
  {
    hide Spares, Settle;
    SparesAll(s);
    SparesMore(s, s, {}, {r});
    if Live(s, t, r) {
      var s1 := SetRun(s, r, s.runs[r].(cancelRequested := true));
      SetSpares(s, r, s1.runs[r]);
      LogSpares(s1, r, RequestCancel);
      LogAndSettleSpares(s1, t, r, RequestCancel);
      SparesOn(s, s1, Log(s1, r, RequestCancel), {r});
      SparesOn(s, s1, Settle(Log(s1, r, RequestCancel), t, r), {r});
    }
  }

  lemma NoteOnceSpares(s: State, r: RunId, c: Counter)
    requires r in s.runs
    ensures Spares(s, NoteOnce(s, r, c), {r})
  {
    hide Spares, NoteAbnormal;
    var run := s.runs[r];
    SparesAll(s);
    SparesMore(s, s, {}, {r});
    if run.claimedBy.Some? && !run.notedAbnormal {
      var s1 := SetRun(s, r, run.(notedAbnormal := true));
      SetSpares(s, r, run.(notedAbnormal := true));
      NoteSpares(s1, r, run.claimedBy.value, c);
      SparesMore(s1, NoteOnce(s, r, c), {}, {r});
      SparesOn(s, s1, NoteOnce(s, r, c), {r});
    }
  }

  lemma TrustedSpares(s: State, t: ThreadId, r: RunId, c: Command)
    requires t in s.threads
    ensures Spares(s, OnTrusted(s, t, r, c), {r})
  {
    hide Spares, Settle, NoteOnce, RecordAndMaybeSettle, OnCancelAsked;
    SparesAll(s);
    SparesMore(s, s, {}, {r});
    if Live(s, t, r) {
      CancelSpares(s, t, r);
      RecordSpares(s, t, r, c);
      var s1 := NoteOnce(s, r, Abandoned);
      NoteOnceSpares(s, r, Abandoned);
      LogAndSettleSpares(s1, t, r, c);
      SparesOn(s, s1, Settle(Log(s1, r, c), t, r), {r});
    }
  }

  lemma QueuedSpares(s: State, t: ThreadId, r: RunId)
    requires t in s.threads
    ensures Spares(s, OnQueued(s, t, r), {r})
  {
    hide Spares, OfferTo;
    SparesAll(s);
    SparesMore(s, s, {}, {r});
    if r in s.runs {
      var h := s.threads[t];
      var s1 := s.(threads := s.threads[t := h.(live := h.live + {r})]);
      QueueSpares(s, s1);
      SparesMore(s, s1, {}, {r});
      OfferSpares(s1, t, r, true);
      SparesOn(s, s1, OfferTo(s1, t, r, true), {r});
      var s2 := s1.(threads := s1.threads[t := s1.threads[t].(queue := h.queue + [r])]);
      QueueSpares(s, s2);
      SparesMore(s, s2, {}, {r});
    }
  }

  /** The runs a message is about. */
  function Subject(m: Message): set<RunId> {
    if m.Poke? then {} else {m.run}
  }

  lemma MessageSpares(s: State, t: ThreadId, m: Message)
    requires TailWaits(s, t) && Distinct(s.threads[t].queue)
    ensures Spares(s, OnMessage(s, t, m), Subject(m))
  {
    hide Spares, OnQueued, OnAnswered, OnTrusted, OnCancelAsked, OnOfferLapsed, NoteOnce, RecordAndMaybeSettle;
    SparesAll(s);
    SparesMore(s, s, {}, Subject(m));
    match m {
      case Queued(r) => QueuedSpares(s, t, r);
      case Answered(r, k, v) => AnsweredSpares(s, t, r, k, v);
      case Said(r, k, c) => if Live(s, t, r) { RecordSpares(s, t, r, c); }
      case Trusted(r, c) => TrustedSpares(s, t, r, c);
      case CancelAsked(r) => CancelSpares(s, t, r);
      case OfferLapsed(r, o) => LapsedSpares(s, t, r, o);
      case Undelivered(r) => if Live(s, t, r) { NoteOnceSpares(s, r, Undeliverable); }
      case Poke =>
    }
  }

  lemma AdvanceSpares(s: State, t: ThreadId)
    ensures Spares(s, Advance(s, t), {})
  {
    hide Spares, OfferTo;
    SparesAll(s);
    if t in s.threads {
      var q := DropSettled(s.runs, s.threads[t].queue);
      var s1 := WithQueue(s, t, q);
      DropSettledHead(s.runs, s.threads[t].queue);
      QueueSpares(s, s1);
      if q != [] && Idle(s.runs[q[0]]) {
        OfferSpares(s1, t, q[0], false);
        IdleIsNobodys(s1, OfferTo(s1, t, q[0], false), q[0]);
        SparesOn(s, s1, OfferTo(s1, t, q[0], false), {});
      }
    }
  }

  // ---- a cancel waiting on a verdict ---------------------------------------------------------------

  /** A cancel was asked for while the verdict on an offer was out. */
  predicate Pending(run: Run) {
    run.verdictOpen && run.cancelRequested && run.claimedBy.None? && run.offeredTo.Some?
  }

  /** The two messages that end such a run for a reason of their own: its provider refused
      it, or funduq gave up on it. */
  predicate EndsOtherwise(m: Message, r: RunId, key: Option<Key>) {
    || (m.Answered? && m.run == r && Some(m.key) == key && m.verdict.Refused?)
    || (m.Trusted? && m.run == r && m.command.Fail?)
  }

  /** What a message makes of it: the verdict is still out; it ended, cancelled; it ended
      for a reason of its own; or it was taken, and the cancel is on the record or the end
      of the run posted. */
  ghost predicate Decided(s: State, t: ThreadId, r: RunId, m: Message, key: Option<Key>) {
    || (r in s.runs && Pending(s.runs[r]))
    || (r in s.done && (LastIs(s.done[r], RequestCancel) || EndsOtherwise(m, r, key)))
    || (r in s.runs && s.runs[r].claimedBy.Some? && s.runs[r].thread == t
        && (CancelRecorded(s.runs[r].record) || (t in s.threads && FailIn(s.threads[t].inbox, r))))
  }

  lemma EndedIn(s: State, t: ThreadId, r: RunId, c: Command)
    requires t in s.threads && r in s.runs
    ensures var s' := EndUntaken(s, t, r, c); r in s'.done && LastIs(s'.done[r], c)
  {
    LogAndSettleIs(s, t, r, c);
    EndedLast(s.runs[r], c);
  }

  lemma CancelJustRecorded(s: State, r: RunId)
    requires r in s.runs
    ensures r in Log(s, r, RequestCancel).runs && CancelRecorded(Log(s, r, RequestCancel).runs[r].record)
    ensures Log(s, r, RequestCancel).runs[r].claimedBy == s.runs[r].claimedBy
    ensures Log(s, r, RequestCancel).runs[r].thread == s.runs[r].thread
  {
    var record := Log(s, r, RequestCancel).runs[r].record;
    assert record[|record| - 1].Did? && record[|record| - 1].command.RequestCancel?;
  }

  lemma FailPosted(s: State, r: RunId, t: ThreadId, code: FailCode)
    requires r in s.runs && s.runs[r].thread == t && t in s.threads
    ensures var s' := Post(s, r, Trusted(r, Fail(code, "")));
            t in s'.threads && FailIn(s'.threads[t].inbox, r) && s'.runs == s.runs
  {
    var inbox := Post(s, r, Trusted(r, Fail(code, ""))).threads[t].inbox;
    assert inbox[|inbox| - 1] == Trusted(r, Fail(code, ""));
  }

  lemma AcceptedDecides(s: State, t: ThreadId, r: RunId, k: Key, m: Message, key: Option<Key>)
    requires TailWaits(s, t) && Distinct(s.threads[t].queue) && r in s.runs && !Idle(s.runs[r])
    requires s.runs[r].cancelRequested && s.runs[r].thread == t
    ensures Decided(OnAccepted(s, t, r, k), t, r, m, key)
  {
    hide JoinEach, Log, Post, Joining, Spares, CancelRecorded;
    var s1 := SetRun(s, r, Claimed(s.runs[r], k));
    if Serving(s1, s1.runs[r].agent) != s1.runs[r].offeredConn {
      FailPosted(s1, r, t, ProviderLeftHoldingIt);
    } else {
      var q := s1.threads[t].queue;
      var ids := Joining(s1.runs, if q == [] then [] else q[1..], r);
      JoinersWait(s, t, r, k);
      JoinEachSpares(s1, t, ids);
      SparedRun(s1, JoinEach(s1, t, ids), r);
      var s2 := if s1.runs[r].isInterjection then s1 else ReleaseInterjections(s1, t, r);
      CancelJustRecorded(s2, r);
    }
  }

  lemma SparedRun(s: State, s': State, r: RunId)
    requires Spares(s, s', {}) && r in s.runs && !Idle(s.runs[r])
    ensures r in s'.runs && s'.runs[r] == s.runs[r]
  {
  }

  lemma AnsweredDecides(s: State, t: ThreadId, r: RunId, k: Key, v: Verdict)
    requires TailWaits(s, t) && Distinct(s.threads[t].queue) && Live(s, t, r) && Pending(s.runs[r]) &&
             s.runs[r].thread == t
    ensures Decided(OnAnswered(s, t, r, k, v), t, r, Answered(r, k, v), s.runs[r].offeredTo)
  {
    hide EndUntaken, NoteMisdeclared, OnAccepted, Release, CancelRecorded, LastIs;
    if s.runs[r].offeredTo == Some(k) {
      var s1 := CloseVerdict(s, r);
      match v {
        case Refused(reason) => ReleasedIn(s1, t, r, Fail(ProviderRefused, reason));
        case Declined => ReleasedIn(s1, t, r, RequestCancel);
        case Accepted => AcceptedDecides(s1, t, r, k, Answered(r, k, v), s.runs[r].offeredTo);
      }
    }
  }

  lemma ReleasedIn(s: State, t: ThreadId, r: RunId, c: Command)
    requires t in s.threads && r in s.runs
    ensures var s' := EndUntaken(Release(s, r), t, r, c); r in s'.done && LastIs(s'.done[r], c)
  {
    EndedIn(Release(s, r), t, r, c);
  }

  lemma LapsedDecides(s: State, t: ThreadId, r: RunId, o: nat)
    requires Live(s, t, r) && Pending(s.runs[r])
    ensures Decided(OnOfferLapsed(s, t, r, o), t, r, OfferLapsed(r, o), s.runs[r].offeredTo)
  {
    hide EndUntaken, NoteAbnormal, Release, LastIs, CancelRecorded;
    if s.runs[r].offerId == o {
      var s1 := CloseVerdict(s, r);
      var s2 := NoteAbnormal(s1, r, s.runs[r].offeredTo.value, Unanswered);
      NoteIs(s1, r, s.runs[r].offeredTo.value, Unanswered);
      ReleasedIn(s2, t, r, RequestCancel);
    }
  }

  lemma FailDecides(s: State, t: ThreadId, r: RunId, c: Command)
    requires Live(s, t, r) && Pending(s.runs[r]) && c.Fail?
    ensures Decided(OnTrusted(s, t, r, c), t, r, Trusted(r, c), s.runs[r].offeredTo)
  {
    hide Settle, CancelRecorded;
    LogAndSettleIs(s, t, r, c);
  }

  /** A message about the run itself. */
  lemma OwnMessageDecides(s: State, t: ThreadId, r: RunId, m: Message)
    requires TailWaits(s, t) && Distinct(s.threads[t].queue) && Live(s, t, r) && Pending(s.runs[r]) &&
             s.runs[r].thread == t
    requires !m.Poke? && m.run == r && !m.Queued? && (m.Trusted? ==> m.command.Fail?)
    ensures Decided(OnMessage(s, t, m), t, r, m, s.runs[r].offeredTo)
  {
    hide OnAnswered, OnTrusted, OnOfferLapsed, CancelRecorded, LastIs;
    match m
    case Answered(_, k, v) => AnsweredDecides(s, t, r, k, v);
    case Trusted(_, c) => FailDecides(s, t, r, c);
    case OfferLapsed(_, o) => LapsedDecides(s, t, r, o);
    case _ =>
  }

  /** A message about another run, or one this owner has no say in. */
  lemma OtherMessageDecides(s: State, t: ThreadId, r: RunId, m: Message, key: Option<Key>)
    requires TailWaits(s, t) && Distinct(s.threads[t].queue) && r in s.runs && Pending(s.runs[r])
    requires r !in Subject(m) || (!m.Queued? && !Live(s, t, r))
    ensures Decided(OnMessage(s, t, m), t, r, m, key)
  {
    if r !in Subject(m) {
      MessageSpares(s, t, m);
      hide OnMessage, CancelRecorded, LastIs;
    }
  }

  lemma AdvanceDecides(s: State, t: ThreadId, r: RunId, m: Message, key: Option<Key>)
    requires Decided(s, t, r, m, key) && s.runs.Keys !! s.done.Keys
    ensures Decided(Advance(s, t), t, r, m, key)
  {
    hide Advance, LastIs, CancelRecorded, EndsOtherwise;
    AdvanceSpares(s, t);
    AdvanceMoves(s, t);
    if r in s.runs && t in s.threads { FailStillIn(s, Advance(s, t), t, r); }
  }

  lemma FailStillIn(s: State, s': State, t: ThreadId, r: RunId)
    requires Spares(s, s', {}) && t in s.threads
    ensures FailIn(s.threads[t].inbox, r) ==> FailIn(s'.threads[t].inbox, r)
  {
  }

  lemma RetireDecides(s: State, t: ThreadId, r: RunId, m: Message, key: Option<Key>)
    requires Decided(s, t, r, m, key)
    ensures Decided(Retire(s, t), t, r, m, key)
  {
    hide LastIs, CancelRecorded, EndsOtherwise;
  }

  lemma TakeLeavesPending(s: State, t: ThreadId, r: RunId)
    requires t in s.threads && s.threads[t].inbox != [] && r in s.runs && Pending(s.runs[r])
    ensures var s' := Take(s, t);
            r in s'.runs && Pending(s'.runs[r]) && s'.runs[r].thread == s.runs[r].thread
            && s'.runs[r].offeredTo == s.runs[r].offeredTo && (Live(s', t, r) <==> Live(s, t, r))
  {
    hide Popped;
    TakeForm(s, t);
    PoppedThread(s, t);
    hide Take;
  }

  lemma PendingIsLive(s: State, t: ThreadId, r: RunId)
    requires Inv(s, {}, Nobody) && t in s.threads && s.threads[t].inbox != [] && r in s.runs && Pending(s.runs[r])
    ensures Live(s, t, r) ==> s.runs[r].thread == t
    ensures var m := s.threads[t].inbox[0];
            && (m.Queued? ==> m.run != r) && (m.Trusted? ==> m.command.Fail?)
  {
    hide Inv, RunOK;
    InvThread(s, {}, Nobody, t);
    assert MessageOK(s.runs, s.threads[t], t, s.threads[t].inbox[0]);
    InvRun(s, {}, Nobody, r);
    hide RunShape;
  }

  /** One owner's step, for a run with a cancel waiting on its verdict. */
  lemma OwnerDecides(s: State, t: ThreadId, r: RunId)
    requires Inv(s, {}, Nobody) && t in s.threads && s.threads[t].inbox != [] && r in s.runs && Pending(s.runs[r])
    ensures Decided(OwnerStep(s, t), t, r, s.threads[t].inbox[0], s.runs[r].offeredTo)
  {
    hide Inv, OnMessage, Advance, Retire, Take, Decided, Moves, RunOK;
    var m, key := s.threads[t].inbox[0], s.runs[r].offeredTo;
    var s1 := Take(s, t);
    TakeIs(s, t);
    var s2 := OnMessage(s1, t, m);
    InvBooks(s, {}, Nobody);
    TakeMoves(s, t);
    MessageMoves(s1, t, m);
    StayApart(s, s1);
    StayApart(s1, s2);
    TailWaitsOf(s, t);
    InvThread(s, {}, Nobody, t);
    TailWaitsStill(s, s1, t);
    TakeLeavesPending(s, t, r);
    PendingIsLive(s, t, r);
    if r in Subject(m) && Live(s1, t, r) {
      OwnMessageDecides(s1, t, r, m);
    } else {
      OtherMessageDecides(s1, t, r, m, key);
    }
    AdvanceDecides(s2, t, r, m, key);
    RetireDecides(Advance(s2, t), t, r, m, key);
  }

  lemma StayApart(s: State, s': State)
    requires Moves(s, s') && s.runs.Keys !! s.done.Keys
    ensures s'.runs.Keys !! s'.done.Keys
  {
  }

  lemma TailWaitsStill(s: State, s': State, t: ThreadId)
    requires TailWaits(s, t) && t in s'.threads && s'.threads[t].queue == s.threads[t].queue
    requires s'.runs.Keys == s.runs.Keys && forall r :: r in s.runs ==> StandsAsBefore(s.runs[r], s'.runs[r])
    ensures TailWaits(s', t)
  {
  }

  // ---- every other step --------------------------------------------------------------------------------

  lemma DoorLeavesPending(s: State, r: RunId, q: RunId, run: Run, m: Message)
    requires r in s.runs && Pending(s.runs[r]) && q in s.runs
    requires run.claimedBy == s.runs[q].claimedBy && run.verdictOpen == s.runs[q].verdictOpen
    requires run.offeredTo == s.runs[q].offeredTo && (s.runs[q].cancelRequested ==> run.cancelRequested)
    ensures var s' := Post(SetRun(s, q, run), q, m); r in s'.runs && Pending(s'.runs[r])
  {
  }

  /** Nobody but an owner closes a verdict or takes a cancel back. */
  lemma NoOtherStepDecides(s: State, e: Step, r: RunId)
    requires r in s.runs && Pending(s.runs[r]) && Enabled(s, e) && !e.DoOwner?
    ensures r in Apply(s, e).runs && Pending(Apply(s, e).runs[r])
  {
    hide Pending, Post, SetRun, PutAt, Register, Unregister, Sweep, Enqueue, OwnerStep;
    match e
    case DoEnqueue(q, a, t, addressed, valid) => EnqueueLeaves(s, r, q, a, t, addressed, valid);
    case DoAnswer(q, k, v) => if q in s.runs { StatementLeaves(s, r, q, Answered(q, k, v)); }
    case DoReport(q, ev, k) => if q in s.runs { StatementLeaves(s, r, q, Said(q, k, RelayEvent(ev))); }
    case DoFinish(q, k) => if q in s.runs { StatementLeaves(s, r, q, Said(q, k, FinishStream)); }
    case DoCancel(q) =>
      if q in s.runs { DoorLeavesPending(s, r, q, s.runs[q].(cancelRequested := true), CancelAsked(q)); }
    case DoFail(q, code) => PostSame(s, q, Trusted(q, Fail(code, "")));
    case DoUndelivered(q) => PostSame(s, q, Undelivered(q));
    case DoRegister(mapping) => RegisterSame(s, mapping);
    case DoUnregister(agents) => UnregisterIsNoise(s, agents);
    case DoClock(q) => DoorLeavesPending(s, r, q, s.runs[q].(clockDue := false), OfferLapsed(q, s.runs[q].offerId));
    case DoHandOverFails(t, q, o) => PutSame(s, t, OfferLapsed(q, o));
    case DoSweep => SweepSame(s);
    case _ =>
  }

  lemma StatementLeaves(s: State, r: RunId, q: RunId, m: Message)
    requires r in s.runs && Pending(s.runs[r]) && q in s.runs
    ensures r in PostStatement(s, q, m).runs && Pending(PostStatement(s, q, m).runs[r])
  {
    hide Post, Pending;
    DoorLeavesPending(s, r, q, s.runs[q].(posted := s.runs[q].posted + [m]), m);
  }

  lemma EnqueueLeaves(s: State, r: RunId, q: RunId, a: AgentRef, t: ThreadId, addressed: Option<RunId>, valid: bool)
    requires r in s.runs && q !in s.runs
    ensures var s' := Enqueue(s, q, a, t, addressed, valid); r in s'.runs && s'.runs[r] == s.runs[r]
  {
  }
}
