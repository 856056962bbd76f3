/** What a conduct mark means: each was earned by what its run's record says, and a
    provider that took a run and left it for funduq to end never goes unmarked. */
module BrokerConduct {
  import opened Vocabulary
  import opened BrokerSpec
  import opened BrokerInvariant
  import opened BrokerNoise
  import opened BrokerSteps
  import opened BrokerSystem

  /** The last command of a record that is over. */
  predicate LastIs(run: Run, c: Command) {
    |run.record| >= 2 && run.record[|run.record| - 2].Did? && run.record[|run.record| - 2].command == c
  }

  predicate EndedByFunduq(run: Run) {
    |run.record| >= 2 && run.record[|run.record| - 2].Did? && run.record[|run.record| - 2].command.Fail?
  }

  /** What a finished run must have gone through to have made this mark. */
  predicate Earns(run: Run, m: Mark) {
    match m.counter
    case Misdeclared =>
      run.claimedBy.None? && LastIs(run, Fail(ProviderDeclined, ""))
      && run.heard != [] && run.heard[|run.heard| - 1] == Answered(m.run, m.key, Declined)
    case Unanswered =>
      run.claimedBy.None? && (LastIs(run, RequestCancel) || LastIs(run, Fail(ProviderDidNotAnswer, "")))
    case Abandoned => run.claimedBy == Some(m.key) && EndedByFunduq(run)
    case Undeliverable => run.claimedBy == Some(m.key)
  }

  predicate Earned(runs: map<RunId, Run>, done: map<RunId, Run>, m: Mark) {
    if m.run in done then Earns(done[m.run], m)
    else m.run in runs && m.counter.Undeliverable? && runs[m.run].claimedBy == Some(m.key)
  }

  /** A run somebody took and funduq had to end, other than for what it said, cost a mark. */
  predicate Deserved(ledger: seq<Mark>, r: RunId, run: Run) {
    run.claimedBy.Some? && EndedByFunduq(run) && !LastIs(run, Fail(ProviderSentMalformedEvent, POISON)) ==>
      Mark(r, run.claimedBy.value, Abandoned) in ledger || Mark(r, run.claimedBy.value, Undeliverable) in ledger
  }

  ghost predicate Conduct(runs: map<RunId, Run>, done: map<RunId, Run>, ledger: seq<Mark>) {
    var holds :=
      && runs.Keys !! done.Keys
      && (forall m :: m in ledger ==> Earned(runs, done, m))
      && (forall r :: r in runs && runs[r].notedAbnormal ==>
            runs[r].claimedBy.Some? && Mark(r, runs[r].claimedBy.value, Undeliverable) in ledger)
      && (forall r :: r in done ==> Deserved(ledger, r, done[r]));
    holds
  }

  ghost predicate Cond(s: State) {
    Conduct(s.runs, s.done, s.ledger)
  }

  // ---- the few things that matter to it -------------------------------------------------

  ghost predicate SameStanding(runs: map<RunId, Run>, runs': map<RunId, Run>) {
    && runs'.Keys == runs.Keys
    && forall r :: r in runs ==>
         runs'[r].claimedBy == runs[r].claimedBy && runs'[r].notedAbnormal == runs[r].notedAbnormal
  }

  lemma QuietConducts(s: State, s': State)
    requires Cond(s) && s'.done == s.done && s'.ledger == s.ledger && SameStanding(s.runs, s'.runs)
    ensures Cond(s')
  {
  }

  lemma NoiseConducts(s: State, s': State)
    requires Cond(s) && Noise(s, s')
    ensures Cond(s')
  {
  }

  lemma SetQuiet(s: State, r: RunId, run: Run)
    requires Cond(s) && r in s.runs && run.claimedBy == s.runs[r].claimedBy &&
             run.notedAbnormal == s.runs[r].notedAbnormal
    ensures Cond(SetRun(s, r, run))
  {
    QuietConducts(s, SetRun(s, r, run));
  }

  lemma ReleaseConducts(s: State, r: RunId)
    requires Cond(s) && r in s.runs
    ensures Cond(Release(s, r))
  {
    QuietConducts(s, Release(s, r));
  }

  /** A run ends and moves to the finished ones. */
  lemma EndConducts(runs: map<RunId, Run>, done: map<RunId, Run>, ledger: seq<Mark>, r: RunId, run: Run)
    requires Conduct(runs, done, ledger) && r in runs && run.claimedBy == runs[r].claimedBy
    requires Deserved(ledger, r, run)
    ensures Conduct(runs - {r}, done[r := run], ledger)
  {
    forall m | m in ledger ensures Earned(runs - {r}, done[r := run], m) {
      assert Earned(runs, done, m);
    }
  }

  lemma DeservedStill(ledger: seq<Mark>, m: Mark, r: RunId, run: Run)
    requires Deserved(ledger, r, run)
    ensures Deserved(ledger + [m], r, run)
  {
  }

  /** A mark is made and its run ends. */
  lemma MarkAndEndConducts(runs: map<RunId, Run>, done: map<RunId, Run>, ledger: seq<Mark>, m: Mark, run: Run)
    requires Conduct(runs, done, ledger) && m.run in runs && run.claimedBy == runs[m.run].claimedBy
    requires Earns(run, m) && Deserved(ledger + [m], m.run, run)
    ensures Conduct(runs - {m.run}, done[m.run := run], ledger + [m])
  {
    var r := m.run;
    forall x | x in ledger + [m] ensures Earned(runs - {r}, done[r := run], x) {
      if x != m { assert x in ledger && Earned(runs, done, x); }
    }
    forall q | q in done ensures Deserved(ledger + [m], q, done[q]) {
      DeservedStill(ledger, m, q, done[q]);
    }
  }

  lemma UndeliveredConducts(runs: map<RunId, Run>, done: map<RunId, Run>, ledger: seq<Mark>, r: RunId, k: Key)
    requires Conduct(runs, done, ledger) && r in runs && runs[r].claimedBy == Some(k)
    ensures Conduct(runs[r := runs[r].(notedAbnormal := true)], done, ledger + [Mark(r, k, Undeliverable)])
  {
    var m := Mark(r, k, Undeliverable);
    var runs' := runs[r := runs[r].(notedAbnormal := true)];
    forall x | x in ledger + [m] ensures Earned(runs', done, x) {
      if x != m { assert x in ledger && Earned(runs, done, x); }
    }
    forall q | q in done ensures Deserved(ledger + [m], q, done[q]) {
      DeservedStill(ledger, m, q, done[q]);
    }
  }

  lemma ClaimConducts(s: State, r: RunId, k: Key)
    requires Cond(s) && r in s.runs && s.runs[r].claimedBy.None?
    ensures Cond(SetRun(s, r, Claimed(s.runs[r], k)))
  {
    var runs' := s.runs[r := Claimed(s.runs[r], k)];
    forall m | m in s.ledger ensures Earned(runs', s.done, m) {
      assert Earned(s.runs, s.done, m);
    }
  }

  lemma EnqueueConducts(s: State, r: RunId, a: AgentRef, t: ThreadId, addressed: Option<RunId>, valid: bool)
    requires Cond(s) && r !in s.runs && r !in s.done
    ensures Cond(Enqueue(s, r, a, t, addressed, valid))
  {
    var s' := Enqueue(s, r, a, t, addressed, valid);
    forall m | m in s.ledger ensures Earned(s'.runs, s'.done, m) {
      assert Earned(s.runs, s.done, m);
    }
  }

  // ---- the operations --------------------------------------------------------------------

  lemma EndedLast(run: Run, c: Command)
    ensures var run' := Ended(Logged(run, c));
            && LastIs(run', c) && (EndedByFunduq(run') <==> c.Fail?)
            && run'.claimedBy == run.claimedBy && run'.heard == run.heard
            && forall d :: LastIs(run', d) ==> d == c
  {
    var record := Ended(Logged(run, c)).record;
    assert record[|record| - 2] == Did(c, run.claimedBy, run.cancelRequested);
  }

  lemma LogAndSettleIs(s: State, t: ThreadId, r: RunId, c: Command)
    requires t in s.threads && r in s.runs
    ensures var s' := Settle(Log(s, r, c), t, r);
            s'.runs == s.runs - {r} && s'.done == s.done[r := Ended(Logged(s.runs[r], c))] && s'.ledger == s.ledger
  {
    SettleIs(Log(s, r, c), t, r);
  }

  /** Ending a run nobody took, or for anything but a failure, or for what it said. */
  lemma SettleConducts(s: State, t: ThreadId, r: RunId, c: Command)
    requires Cond(s) && t in s.threads && r in s.runs
    requires s.runs[r].claimedBy.None? || !c.Fail? || c == Fail(ProviderSentMalformedEvent, POISON)
    ensures Cond(Settle(Log(s, r, c), t, r))
  {
    hide Conduct, Settle;
    LogAndSettleIs(s, t, r, c);
    EndedLast(s.runs[r], c);
    EndConducts(s.runs, s.done, s.ledger, r, Ended(Logged(s.runs[r], c)));
  }

  lemma OfferConducts(s: State, t: ThreadId, r: RunId, interjection: bool)
    requires Cond(s) && t in s.threads && r in s.runs && s.runs[r].claimedBy.None?
    ensures Cond(OfferTo(s, t, r, interjection))
  {
    hide Conduct, Settle;
    if !CanOffer(s, s.runs[r].agent) {
      QuietConducts(s, OfferTo(s, t, r, interjection));
    } else if !s.runs[r].validInput {
      SettleConducts(s, t, r, Fail(InputDoesNotValidate, INVALID_INPUT));
    } else {
      QuietConducts(s, Offered(s, r, Serving(s, s.runs[r].agent).value, interjection));
    }
  }

  lemma OfferClaims(s: State, t: ThreadId, r: RunId, interjection: bool)
    requires t in s.threads && r in s.runs
    ensures forall q :: q in OfferTo(s, t, r, interjection).runs ==>
              q in s.runs && OfferTo(s, t, r, interjection).runs[q].claimedBy == s.runs[q].claimedBy
  {
    hide Settle;
    if CanOffer(s, s.runs[r].agent) && !s.runs[r].validInput {
      LogAndSettleIs(s, t, r, Fail(InputDoesNotValidate, INVALID_INPUT));
    }
  }

  ghost predicate Unclaimed(runs: map<RunId, Run>, ids: seq<RunId>) {
    forall i :: 0 <= i < |ids| && ids[i] in runs ==> runs[ids[i]].claimedBy.None?
  }

  lemma {:induction false} JoinEachConducts(s: State, t: ThreadId, ids: seq<RunId>)
    requires Cond(s) && Unclaimed(s.runs, ids)
    ensures Cond(JoinEach(s, t, ids))
    decreases |ids|
  {
    hide Cond, OfferTo;
    if ids != [] {
      var r, s1 := ids[0], JoinOne(s, t, ids[0]);
      if t in s.threads && r in s.runs {
        var s0 := WithQueue(s, t, RemoveFirst(s.threads[t].queue, r));
        QueueConducts(s, t, RemoveFirst(s.threads[t].queue, r));
        OfferConducts(s0, t, r, true);
        OfferClaims(s0, t, r, true);
      }
      JoinEachConducts(s1, t, ids[1..]);
    }
  }

  lemma QueueConducts(s: State, t: ThreadId, q: seq<RunId>)
    requires Cond(s) && t in s.threads
    ensures Cond(WithQueue(s, t, q))
  {
  }

  lemma LogConducts(s: State, r: RunId, c: Command)
    requires Cond(s)
    ensures Cond(Log(s, r, c))
  {
    if r in s.runs { SetQuiet(s, r, Logged(s.runs[r], c)); }
  }

  /** Behind the head of a thread's queue nobody has been offered anything. */
  ghost predicate TailWaits(s: State, t: ThreadId) {
    t in s.threads && var q := s.threads[t].queue; forall i :: 0 < i < |q| && q[i] in s.runs ==> Idle(s.runs[q[i]])
  }

  lemma JoiningUnclaimed(s: State, t: ThreadId, r: RunId, k: Key)
    requires TailWaits(s, t) && r in s.runs && !Idle(s.runs[r])
    ensures var s1 := SetRun(s, r, Claimed(s.runs[r], k));
            var q := s1.threads[t].queue;
            Unclaimed(s1.runs, Joining(s1.runs, if q == [] then [] else q[1..], r))
  {
    var s1 := SetRun(s, r, Claimed(s.runs[r], k));
    var q := s.threads[t].queue;
    var tail := if q == [] then [] else q[1..];
    forall i | 0 <= i < |Joining(s1.runs, tail, r)| && Joining(s1.runs, tail, r)[i] in s1.runs
      ensures s1.runs[Joining(s1.runs, tail, r)[i]].claimedBy.None?
    {
      JoiningWithin(s1.runs, tail, r, Joining(s1.runs, tail, r)[i]);
    }
  }

  lemma {:induction false} JoiningWithin(runs: map<RunId, Run>, q: seq<RunId>, head: RunId, x: RunId)
    requires x in Joining(runs, q, head)
    ensures x in q
  {
    if q != [] && x in Joining(runs, q[1..], head) { JoiningWithin(runs, q[1..], head, x); }
  }

  lemma AcceptConducts(s: State, t: ThreadId, r: RunId, k: Key)
    requires Cond(s) && TailWaits(s, t) && r in s.runs && s.runs[r].claimedBy.None? && !Idle(s.runs[r])
    ensures Cond(OnAccepted(s, t, r, k))
  {
    hide Conduct, ReleaseInterjections, Claimed, Log, Post, SetRun, Serving;
    var s1 := SetRun(s, r, Claimed(s.runs[r], k));
    ClaimedRun(s, r, k);
    ClaimConducts(s, r, k);
    if Serving(s1, s1.runs[r].agent) != s1.runs[r].offeredConn {
      PostSame(s1, r, Trusted(r, Fail(ProviderLeftHoldingIt, "")));
    } else {
      JoinersConduct(s, t, r, k);
      var s2 := if s1.runs[r].isInterjection then s1 else ReleaseInterjections(s1, t, r);
      LogConducts(s2, r, RequestCancel);
    }
  }

  lemma ClaimedRun(s: State, r: RunId, k: Key)
    requires r in s.runs
    ensures var s1 := SetRun(s, r, Claimed(s.runs[r], k)); r in s1.runs && s1.threads == s.threads
  {
  }

  lemma JoinersConduct(s: State, t: ThreadId, r: RunId, k: Key)
    requires Cond(s) && TailWaits(s, t) && r in s.runs && s.runs[r].claimedBy.None? && !Idle(s.runs[r])
    ensures var s1 := SetRun(s, r, Claimed(s.runs[r], k)); t in s1.threads && Cond(ReleaseInterjections(s1, t, r))
  {
    hide Conduct, JoinEach, Joining;
    var s1 := SetRun(s, r, Claimed(s.runs[r], k));
    ClaimConducts(s, r, k);
    JoiningUnclaimed(s, t, r, k);
    var q := s1.threads[t].queue;
    JoinEachConducts(s1, t, Joining(s1.runs, if q == [] then [] else q[1..], r));
  }

  /** A mark against `k` for run `r`, which then ends with `c`, having been taken by nobody. */
  lemma MarkUntakenConducts(s: State, t: ThreadId, r: RunId, k: Key, n: Counter, c: Command)
    requires Cond(s) && t in s.threads && r in s.runs && s.runs[r].claimedBy.None?
    requires Earns(Ended(Logged(s.runs[r], c)), Mark(r, k, n))
    ensures Cond(Settle(Log(Release(NoteAbnormal(s, r, k, n), r), r, c), t, r))
    ensures Cond(Settle(Log(NoteAbnormal(Release(s, r), r, k, n), r, c), t, r))
  {
    hide Conduct, Settle, NoteAbnormal, Noise, Earns;
    var m, run := Mark(r, k, n), Ended(Logged(s.runs[r], c));
    NoteIs(s, r, k, n);
    NoteIs(Release(s, r), r, k, n);
    LogAndSettleIs(Release(NoteAbnormal(s, r, k, n), r), t, r, c);
    LogAndSettleIs(NoteAbnormal(Release(s, r), r, k, n), t, r, c);
    EndedLast(s.runs[r], c);
    MarkAndEndConducts(s.runs, s.done, s.ledger, m, run);
    ReleasedEnds(s.runs[r], c);
    assert Release(s, r).runs - {r} == s.runs - {r};
    assert Release(NoteAbnormal(s, r, k, n), r).runs - {r} == s.runs - {r};
  }

  lemma ReleasedEnds(run: Run, c: Command)
    ensures Ended(Logged(run.(offeredTo := None, offeredConn := None), c)) == Ended(Logged(run, c))
  {
  }

  lemma NoteIs(s: State, r: RunId, k: Key, n: Counter)
    ensures var s' := NoteAbnormal(s, r, k, n);
            s'.runs == s.runs && s'.done == s.done && s'.ledger == s.ledger + [Mark(r, k, n)]
            && s'.threads.Keys == s.threads.Keys
  {
    NoteIsBumpAndNoise(s, r, k, n);
  }

  lemma AnsweredConducts(s: State, t: ThreadId, r: RunId, k: Key, v: Verdict)
    requires Cond(s) && TailWaits(s, t)
    requires r in s.runs ==> (s.runs[r].verdictOpen ==> s.runs[r].claimedBy.None?)
    requires r in s.runs ==> s.runs[r].heard != [] && s.runs[r].heard[|s.runs[r].heard| - 1] == Answered(r, k, v)
    ensures Cond(OnAnswered(s, t, r, k, v))
  {
    hide Conduct, Settle, NoteAbnormal, OnAccepted, Release;
    if Live(s, t, r) && s.runs[r].verdictOpen && s.runs[r].offeredTo == Some(k) {
      var s1 := CloseVerdict(s, r);
      SetQuiet(s, r, s1.runs[r]);
      match v {
        case Accepted => AcceptConducts(s1, t, r, k);
        case Refused(reason) => UntakenConducts(s1, t, r, Fail(ProviderRefused, reason));
        case Declined =>
          UntakenConducts(s1, t, r, RequestCancel);
          UntakenConducts(s1, t, r, Fail(ProviderDeclined, ""));
          EndedLast(s1.runs[r], Fail(ProviderDeclined, ""));
          MarkUntakenConducts(s1, t, r, k, Misdeclared, Fail(ProviderDeclined, ""));
      }
    }
  }

  lemma UntakenConducts(s: State, t: ThreadId, r: RunId, c: Command)
    requires Cond(s) && t in s.threads && r in s.runs && s.runs[r].claimedBy.None?
    ensures Cond(EndUntaken(Release(s, r), t, r, c))
  {
    hide Conduct, Settle;
    ReleaseConducts(s, r);
    SettleConducts(Release(s, r), t, r, c);
  }

  lemma LapsedConducts(s: State, t: ThreadId, r: RunId, o: nat)
    requires Cond(s) && t in s.threads
    requires r in s.runs ==> (s.runs[r].verdictOpen ==> s.runs[r].claimedBy.None?)
    ensures Cond(OnOfferLapsed(s, t, r, o))
  {
    hide Conduct, Settle, NoteAbnormal, Release;
    if Live(s, t, r) && s.runs[r].verdictOpen && s.runs[r].offerId == o {
      var s1 := CloseVerdict(s, r);
      SetQuiet(s, r, s1.runs[r]);
      var c := if s.runs[r].cancelRequested then RequestCancel else Fail(ProviderDidNotAnswer, "");
      if s.runs[r].offeredTo.Some? {
        EndedLast(s1.runs[r], c);
        MarkUntakenConducts(s1, t, r, s.runs[r].offeredTo.value, Unanswered, c);
      } else {
        UntakenConducts(s1, t, r, c);
      }
    }
  }

  lemma RecordConducts(s: State, t: ThreadId, r: RunId, c: Command)
    requires Cond(s) && t in s.threads && r in s.runs
    ensures Cond(RecordAndMaybeSettle(s, t, r, c))
  {
    hide Conduct, Settle;
    LogConducts(s, r, c);
    if c.RelayEvent? && Malformed(c.event) {
      SettleConducts(Log(s, r, c), t, r, Fail(ProviderSentMalformedEvent, POISON));
    } else if c.FinishStream? {
      SettleConducts(s, t, r, c);
    }
  }

  lemma CancelConducts(s: State, t: ThreadId, r: RunId)
    requires Cond(s) && t in s.threads
    ensures Cond(OnCancelAsked(s, t, r))
  {
    hide Conduct, Settle;
    if Live(s, t, r) {
      var s1 := SetRun(s, r, s.runs[r].(cancelRequested := true));
      SetQuiet(s, r, s1.runs[r]);
      LogConducts(s1, r, RequestCancel);
      SettleConducts(s1, t, r, RequestCancel);
    }
  }

  lemma NotedHasMark(s: State, r: RunId)
    requires Cond(s) && r in s.runs && s.runs[r].notedAbnormal
    ensures s.runs[r].claimedBy.Some? && Mark(r, s.runs[r].claimedBy.value, Undeliverable) in s.ledger
  {
  }

  /** funduq ends a run somebody holds: marked for it now, or marked already. */
  lemma FailConducts(s: State, t: ThreadId, r: RunId, c: Command)
    requires Cond(s) && t in s.threads && r in s.runs && c.Fail?
    ensures Cond(Settle(Log(NoteOnce(s, r, Abandoned), r, c), t, r))
  {
    hide Settle, NoteAbnormal;
    var run := s.runs[r];
    EndedLast(run, c);
    if run.claimedBy.None? {
      SettleConducts(s, t, r, c);
    } else if run.notedAbnormal {
      NotedHasMark(s, r);
      hide Conduct;
      LogAndSettleIs(s, t, r, c);
      EndConducts(s.runs, s.done, s.ledger, r, Ended(Logged(run, c)));
    } else {
      hide Conduct;
      AbandonedConducts(s, t, r, c);
    }
  }

  lemma AbandonedConducts(s: State, t: ThreadId, r: RunId, c: Command)
    requires Cond(s) && t in s.threads && r in s.runs && c.Fail? && s.runs[r].claimedBy.Some? &&
             !s.runs[r].notedAbnormal
    ensures Cond(Settle(Log(NoteOnce(s, r, Abandoned), r, c), t, r))
  {
    hide Conduct, Settle, NoteAbnormal;
    var run, k := s.runs[r].(notedAbnormal := true), s.runs[r].claimedBy.value;
    var s1 := SetRun(s, r, run);
    NoteIs(s1, r, k, Abandoned);
    LogAndSettleIs(NoteAbnormal(s1, r, k, Abandoned), t, r, c);
    EndedLast(run, c);
    MarkAndEndConducts(s.runs, s.done, s.ledger, Mark(r, k, Abandoned), Ended(Logged(run, c)));
    assert s1.runs - {r} == s.runs - {r};
  }

  lemma NoteUndeliveredConducts(s: State, r: RunId)
    requires Cond(s) && r in s.runs
    ensures Cond(NoteOnce(s, r, Undeliverable))
  {
    hide Conduct, NoteAbnormal;
    var run := s.runs[r];
    if run.claimedBy.Some? && !run.notedAbnormal {
      NoteIs(SetRun(s, r, run.(notedAbnormal := true)), r, run.claimedBy.value, Undeliverable);
      UndeliveredConducts(s.runs, s.done, s.ledger, r, run.claimedBy.value);
    }
  }

  lemma QueuedConducts(s: State, t: ThreadId, r: RunId)
    requires Cond(s) && t in s.threads && (r in s.runs ==> s.runs[r].claimedBy.None?)
    ensures Cond(OnQueued(s, t, r))
  {
    hide Conduct, OfferTo;
    if r in s.runs {
      var h := s.threads[t];
      var s1 := s.(threads := s.threads[t := h.(live := h.live + {r})]);
      OfferConducts(s1, t, r, true);
    }
  }

  // ---- one owner's step, and every step -------------------------------------------------------

  /** What an owner knows of the run a message is about, before it reads it. */
  ghost predicate Ready(s: State, t: ThreadId, m: Message) {
    && TailWaits(s, t)
    && (!m.Poke? && m.run in s.runs ==>
          && (s.runs[m.run].verdictOpen ==> s.runs[m.run].claimedBy.None?)
          && (m.Queued? ==> s.runs[m.run].claimedBy.None?)
          && (m.Answered? && Live(s, t, m.run) ==>
                s.runs[m.run].heard != [] && s.runs[m.run].heard[|s.runs[m.run].heard| - 1] == m))
  }

  lemma MessageConducts(s: State, t: ThreadId, m: Message)
    requires Cond(s) && Ready(s, t, m) && (m.Trusted? ==> m.command.Fail?)
    ensures Cond(OnMessage(s, t, m))
  {
    hide Conduct, OnQueued, OnAnswered, OnCancelAsked, OnOfferLapsed, NoteOnce, RecordAndMaybeSettle, Settle;
    match m {
      case Queued(r) => QueuedConducts(s, t, r);
      case Answered(r, k, v) => if Live(s, t, r) { AnsweredConducts(s, t, r, k, v); } else { DeafTo(s, t, r, k, v); }
      case Said(r, k, c) => if Live(s, t, r) { RecordConducts(s, t, r, c); }
      case Trusted(r, c) => if Live(s, t, r) { FailConducts(s, t, r, c); }
      case CancelAsked(r) => CancelConducts(s, t, r);
      case OfferLapsed(r, o) => LapsedConducts(s, t, r, o);
      case Undelivered(r) => if Live(s, t, r) { NoteUndeliveredConducts(s, r); }
      case Poke =>
    }
  }

  lemma DeafTo(s: State, t: ThreadId, r: RunId, k: Key, v: Verdict)
    requires t in s.threads && !Live(s, t, r)
    ensures OnAnswered(s, t, r, k, v) == s
  {
  }

  predicate StandsAsBefore(run: Run, run': Run) {
    && run'.claimedBy == run.claimedBy && run'.notedAbnormal == run.notedAbnormal
    && run'.verdictOpen == run.verdictOpen && run'.offeredTo == run.offeredTo
  }

  function Popped(s: State, t: ThreadId): State
    requires t in s.threads && s.threads[t].inbox != []
  {
    s.(threads := s.threads[t := s.threads[t].(inbox := s.threads[t].inbox[1..])])
  }

  lemma HeardStands(s: State, r: RunId, m: Message)
    requires r in s.runs
    ensures var s' := SetRun(s, r, s.runs[r].(heard := s.runs[r].heard + [m]));
            && s'.runs.Keys == s.runs.Keys && s'.runs[r].heard == s.runs[r].heard + [m]
            && (forall q :: q in s.runs ==> StandsAsBefore(s.runs[q], s'.runs[q]))
  {
  }

  lemma {:induction false} TakeForm(s: State, t: ThreadId)
    requires t in s.threads && s.threads[t].inbox != []
    ensures var m, p := s.threads[t].inbox[0], Popped(s, t);
            if (m.Answered? || m.Said?) && Live(s, t, m.run)
            then m.run in p.runs && Take(s, t) == SetRun(p, m.run, p.runs[m.run].(heard := p.runs[m.run].heard + [m]))
            else Take(s, t) == p
  {
  }

  lemma PoppedThread(s: State, t: ThreadId)
    requires t in s.threads && s.threads[t].inbox != []
    ensures var s' := Popped(s, t);
            && t in s'.threads && s'.threads[t].queue == s.threads[t].queue && s'.threads[t].live == s.threads[t].live
            && s'.runs == s.runs && s'.done == s.done && s'.ledger == s.ledger
  {
  }

  /** What reading a message changes: the inbox, and what its run has heard. */
  lemma {:induction false} TakeIs(s: State, t: ThreadId)
    requires t in s.threads && s.threads[t].inbox != []
    ensures var s', m := Take(s, t), s.threads[t].inbox[0];
            && s'.done == s.done && s'.ledger == s.ledger && s'.runs.Keys == s.runs.Keys
            && t in s'.threads && s'.threads[t].queue == s.threads[t].queue && s'.threads[t].live == s.threads[t].live
            && (forall r :: r in s.runs ==> StandsAsBefore(s.runs[r], s'.runs[r]))
            && (m.Answered? && Live(s, t, m.run) ==> s'.runs[m.run].heard == s.runs[m.run].heard + [m])
  {
    hide StandsAsBefore, Popped, Take, Live;
    var m := s.threads[t].inbox[0];
    TakeForm(s, t);
    PoppedThread(s, t);
    Unmoved(s.runs);
    if (m.Answered? || m.Said?) && Live(s, t, m.run) { HeardStands(Popped(s, t), m.run, m); }
  }

  lemma Unmoved(runs: map<RunId, Run>)
    ensures forall r :: r in runs ==> StandsAsBefore(runs[r], runs[r])
  {
  }

  lemma TailWaitsOf(s: State, t: ThreadId)
    requires Inv(s, {}, Nobody) && t in s.threads
    ensures TailWaits(s, t)
  {
    hide Inv, RunOK, RunShape;
    InvThread(s, {}, Nobody, t);
    var q := s.threads[t].queue;
    forall i | 0 < i < |q| && q[i] in s.runs ensures Idle(s.runs[q[i]]) {
      assert q[i] in q && q[i] in s.threads[t].live;
      InvRun(s, {}, Nobody, q[i]);
      assert q[0] != q[i];
    }
  }

  lemma ReadyOf(s: State, t: ThreadId, m: Message)
    requires Inv(s, {}, Nobody) && t in s.threads && m in s.threads[t].inbox && !m.Poke? && m.run in s.runs
    ensures s.runs[m.run].verdictOpen ==> s.runs[m.run].claimedBy.None?
    ensures m.Queued? ==> s.runs[m.run].claimedBy.None?
  {
    hide Inv, RunOK;
    InvThread(s, {}, Nobody, t);
    assert MessageOK(s.runs, s.threads[t], t, m);
    InvRun(s, {}, Nobody, m.run);
    RunShapeOf(s, m.run);
    hide RunShape, HeldBy;
  }

  lemma TakeConducts(s: State, t: ThreadId)
    requires Cond(s) && Inv(s, {}, Nobody) && t in s.threads && s.threads[t].inbox != []
    ensures Cond(Take(s, t)) && Ready(Take(s, t), t, s.threads[t].inbox[0])
    ensures s.threads[t].inbox[0].Trusted? ==> s.threads[t].inbox[0].command.Fail?
  {
    hide Conduct, Inv, Take;
    var m := s.threads[t].inbox[0];
    TakeIs(s, t);
    QuietConducts(s, Take(s, t));
    TailWaitsOf(s, t);
    if !m.Poke? && m.run in s.runs { ReadyOf(s, t, m); }
    FirstIsFit(s, t);
  }

  lemma FirstIsFit(s: State, t: ThreadId)
    requires Inv(s, {}, Nobody) && t in s.threads && s.threads[t].inbox != []
    ensures s.threads[t].inbox[0].Trusted? ==> s.threads[t].inbox[0].command.Fail?
  {
    hide Inv;
    InvThread(s, {}, Nobody, t);
    assert MessageOK(s.runs, s.threads[t], t, s.threads[t].inbox[0]);
  }

  lemma AdvanceConducts(s: State, t: ThreadId)
    requires Cond(s)
    ensures Cond(Advance(s, t))
  {
    hide Conduct, OfferTo;
    if t in s.threads {
      var q := DropSettled(s.runs, s.threads[t].queue);
      DropSettledHead(s.runs, s.threads[t].queue);
      if q != [] && Idle(s.runs[q[0]]) { OfferConducts(WithQueue(s, t, q), t, q[0], false); }
    }
  }

  lemma OwnerConducts(s: State, t: ThreadId)
    requires Cond(s) && Inv(s, {}, Nobody) && t in s.threads && s.threads[t].inbox != []
    ensures Cond(OwnerStep(s, t))
  {
    hide Conduct, Inv, Take, OnMessage, Advance, Ready;
    var m := s.threads[t].inbox[0];
    TakeConducts(s, t);
    TakeIs(s, t);
    MessageConducts(Take(s, t), t, m);
    AdvanceConducts(OnMessage(Take(s, t), t, m), t);
  }

  lemma DoorConducts(s: State, r: RunId, run: Run, m: Message)
    requires Cond(s) && r in s.runs && run.claimedBy == s.runs[r].claimedBy &&
             run.notedAbnormal == s.runs[r].notedAbnormal
    ensures Cond(Post(SetRun(s, r, run), r, m))
  {
    hide Conduct;
    SetQuiet(s, r, run);
  }

  lemma {:induction false} RegisterEachSame(s: State, mapping: seq<(AgentRef, Connection)>)
    ensures var s' := RegisterEach(s, mapping); s'.runs == s.runs && s'.done == s.done && s'.ledger == s.ledger
    decreases |mapping|
  {
    if mapping != [] { RegisterEachSame(RegisterOne(s, mapping[0].0, mapping[0].1), mapping[1..]); }
  }

  lemma {:induction false} PokeEachSame(s: State, mapping: seq<(AgentRef, Connection)>)
    ensures var s' := PokeEach(s, mapping); s'.runs == s.runs && s'.done == s.done && s'.ledger == s.ledger
    decreases |mapping|
  {
    if mapping != [] { PokeEachSame(PokeAgent(s, mapping[0].0), mapping[1..]); }
  }

  lemma UnregisterConducts(s: State, agents: seq<AgentRef>)
    requires Cond(s)
    ensures Cond(Unregister(s, agents))
  {
    UnregisterIsNoise(s, agents);
    NoiseConducts(s, Unregister(s, agents));
  }

  lemma StepConducts(s: State, e: Step)
    requires Cond(s) && Inv(s, {}, Nobody) && Enabled(s, e)
    ensures Cond(Apply(s, e))
  {
    hide Conduct, Inv, OwnerStep, Unregister, SetRun, Post, Enqueue, Sweep, Register, PutAt;
    match e {
      case DoEnqueue(r, a, t, addressed, valid) => EnqueueConducts(s, r, a, t, addressed, valid);
      case DoAnswer(r, k, v) =>
        var m := Answered(r, k, v);
        if r in s.runs { DoorConducts(s, r, s.runs[r].(posted := s.runs[r].posted + [m]), m); }
      case DoReport(r, ev, k) =>
        var m := Said(r, k, RelayEvent(ev));
        if r in s.runs { DoorConducts(s, r, s.runs[r].(posted := s.runs[r].posted + [m]), m); }
      case DoFinish(r, k) =>
        var m := Said(r, k, FinishStream);
        if r in s.runs { DoorConducts(s, r, s.runs[r].(posted := s.runs[r].posted + [m]), m); }
      case DoCancel(r) => if r in s.runs { DoorConducts(s, r, s.runs[r].(cancelRequested := true), CancelAsked(r)); }
      case DoFail(r, code) => PostSame(s, r, Trusted(r, Fail(code, "")));
      case DoUndelivered(r) => PostSame(s, r, Undelivered(r));
      case DoRegister(mapping) => RegisterSame(s, mapping);
      case DoHandOverFails(t, r, o) => PutSame(s, t, OfferLapsed(r, o));
      case DoSweep => SweepSame(s);
      case DoUnregister(agents) => UnregisterConducts(s, agents);
      case DoOwner(t) => OwnerConducts(s, t);
      case DoClock(r) => DoorConducts(s, r, s.runs[r].(clockDue := false), OfferLapsed(r, s.runs[r].offerId));
      case _ =>
    }
  }

  lemma RegisterSame(s: State, mapping: seq<(AgentRef, Connection)>)
    ensures var s' := Register(s, mapping); s'.runs == s.runs && s'.done == s.done && s'.ledger == s.ledger
  {
    RegisterEachSame(s, mapping);
    PokeEachSame(RegisterEach(s, mapping).(workToDo := true), mapping);
  }

  lemma PutSame(s: State, t: ThreadId, m: Message)
    ensures PutAt(s, t, m).runs == s.runs && PutAt(s, t, m).done == s.done && PutAt(s, t, m).ledger == s.ledger
  {
  }

  lemma SweepSame(s: State)
    ensures Sweep(s).runs == s.runs && Sweep(s).done == s.done && Sweep(s).ledger == s.ledger
  {
  }

  lemma PostSame(s: State, r: RunId, m: Message)
    ensures Post(s, r, m).runs == s.runs && Post(s, r, m).done == s.done && Post(s, r, m).ledger == s.ledger
  {
  }

  lemma {:induction false} ExecConducts(s: State, steps: seq<Step>)
    requires Cond(s) && Inv(s, {}, Nobody) && Legal(s, steps)
    ensures Cond(Exec(s, steps))
    decreases |steps|
  {
    hide Cond, Inv, Apply, Enabled;
    if steps != [] {
      StepConducts(s, steps[0]);
      StepKeeps(s, steps[0]);
      ExecConducts(Apply(s, steps[0]), steps[1..]);
    }
  }
}
