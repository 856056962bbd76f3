/** Every step the broker can take keeps the invariant. */
module BrokerSteps {
  import opened Vocabulary
  import opened BrokerSpec
  import opened BrokerInvariant
  import opened BrokerNoise

  // ---- queues -------------------------------------------------------------------

  lemma {:induction false} RemoveFirstDrops(q: seq<RunId>, r: RunId)
    requires Distinct(q)
    ensures Distinct(RemoveFirst(q, r))
    ensures forall x :: x in RemoveFirst(q, r) <==> x in q && x != r
    ensures q != [] && q[0] != r ==> RemoveFirst(q, r) != [] && RemoveFirst(q, r)[0] == q[0]
  {
    if q != [] {
      assert q == [q[0]] + q[1..];
      assert Distinct(q[1..]);
      assert q[0] !in q[1..];
      RemoveFirstDrops(q[1..], r);
    }
  }

  lemma {:induction false} RemoveFirstCuts(q: seq<RunId>, r: RunId) returns (p: nat)
    ensures p <= |q|
    ensures RemoveFirst(q, r) == if p < |q| then q[..p] + q[p + 1..] else q
  {
    if q == [] || q[0] == r {
      p := 0;
    } else {
      var p' := RemoveFirstCuts(q[1..], r);
      p := p' + 1;
      assert q == [q[0]] + q[1..];
      if p < |q| { assert q[..p] == [q[0]] + q[1..][..p'] && q[p + 1..] == q[1..][p' + 1..]; }
    }
  }

  // ---- order -------------------------------------------------------------------------

  lemma InLineCut(runs: map<RunId, Run>, h: ThreadHandler, p: nat)
    requires InLine(runs, h) && p < |h.queue|
    ensures InLine(runs, h.(queue := h.queue[..p] + h.queue[p + 1..]))
  {
    var q := h.queue[..p] + h.queue[p + 1..];
    assert forall i :: 0 <= i < |q| ==> q[i] == h.queue[if i < p then i else i + 1];
  }

  lemma InLineLeaves(runs: map<RunId, Run>, h: ThreadHandler, r: RunId)
    requires InLine(runs, h)
    ensures InLine(runs, h.(queue := RemoveFirst(h.queue, r)))
  {
    var p := RemoveFirstCuts(h.queue, r);
    if p < |h.queue| { InLineCut(runs, h, p); }
  }

  /** Fewer runs, the same queue and inbox. */
  lemma InLineWithout(runs: map<RunId, Run>, h: ThreadHandler, h': ThreadHandler, r: RunId)
    requires InLine(runs, h) && h'.queue == h.queue && h'.inbox == h.inbox
    ensures InLine(runs - {r}, h') && InLine(runs, h')
  {
  }

  lemma InLineJoins(runs: map<RunId, Run>, h: ThreadHandler, r: RunId)
    requires InLine(runs, h) && !Ordinary(runs, r)
    ensures InLine(runs, h.(queue := InsertSecond(h.queue, r)))
  {
    var q := InsertSecond(h.queue, r);
    var p := if |h.queue| < 1 then |h.queue| else 1;
    assert forall i :: 0 <= i < |q| && i != p ==> q[i] == h.queue[if i < p then i else i - 1];
    assert q[p] == r;
  }

  lemma InLineSet(runs: map<RunId, Run>, h: ThreadHandler, r: RunId, run: Run)
    requires InLine(runs, h) && r in runs && run.arrival == runs[r].arrival && run.addressed == runs[r].addressed
    ensures InLine(runs[r := run], h)
  {
    var runs' := runs[r := run];
    assert forall q :: Ordinary(runs', q) <==> Ordinary(runs, q);
    assert forall q, z :: Before(runs', q, z) <==> Before(runs, q, z);
  }

  lemma LinesAfterSet(runs: map<RunId, Run>, threads: map<ThreadId, ThreadHandler>, r: RunId, run: Run)
    requires Lines(runs, threads) && r in runs && run.arrival == runs[r].arrival && run.addressed == runs[r].addressed
    ensures Lines(runs[r := run], threads)
  {
    forall t | t in threads ensures InLine(runs[r := run], threads[t]) { InLineSet(runs, threads[t], r, run); }
  }

  lemma LedgerAfter(ledger: seq<Mark>, providers: map<Key, Provider>, providers': map<Key, Provider>,
                    arrivals: seq<RunId>)
    requires Ledger(ledger, providers, arrivals)
    requires forall k :: ProviderOf(providers', k).counters == ProviderOf(providers, k).counters
    ensures Ledger(ledger, providers', arrivals)
  {
    forall k, c ensures CountOf(ProviderOf(providers', k).counters, c) == Count(ledger, k, c) {
      assert CountOf(ProviderOf(providers, k).counters, c) == Count(ledger, k, c);
    }
  }

  // ---- capacity -------------------------------------------------------------------

  lemma HoldingChanges(runs: map<RunId, Run>, r: RunId, run: Run, k: Key)
    requires r in runs
    ensures Holding(runs - {r}, k) == Holding(runs, k) - {r}
    ensures Holding(runs[r := run], k) ==
            if run.offeredTo == Some(k) then Holding(runs, k) + {r} else Holding(runs, k) - {r}
    ensures runs[r].offeredTo == Some(k) <==> r in Holding(runs, k)
  {
  }

  lemma CapacityAfterSet(s: State, s': State, r: RunId, run: Run)
    requires Capacity(s.runs, s.providers) && r in s.runs && run.offeredTo == s.runs[r].offeredTo
    requires s'.runs == s.runs[r := run] && s'.providers == s.providers
    ensures Capacity(s'.runs, s'.providers)
  {
    forall k ensures ProviderOf(s'.providers, k).inFlight == |Holding(s'.runs, k)| {
      HoldingChanges(s.runs, r, run, k);
      assert ProviderOf(s'.providers, k) == ProviderOf(s.providers, k);
    }
  }

  /** The `> 0` guard on giving a place back never decides anything. */
  lemma CapacityAfterRelease(s: State, s': State, r: RunId, run: Run)
    requires Capacity(s.runs, s.providers) && r in s.runs && run.offeredTo.None?
    requires s'.providers == GiveBack(s.providers, s.runs[r].offeredTo)
    requires s'.runs == s.runs - {r} || s'.runs == s.runs[r := run]
    ensures Capacity(s'.runs, s'.providers)
  {
    forall k ensures ProviderOf(s'.providers, k).inFlight == |Holding(s'.runs, k)| {
      HoldingChanges(s.runs, r, run, k);
      assert ProviderOf(s.providers, k).inFlight == |Holding(s.runs, k)|;
      assert Holding(s'.runs, k) == Holding(s.runs, k) - {r};
      if s.runs[r].offeredTo == Some(k) {
        assert r in Holding(s.runs, k);
        assert k in s.providers && s.providers[k].inFlight > 0;
      }
    }
  }

  lemma CapacityAfterOffer(s: State, r: RunId, c: Connection, interjection: bool)
    requires Capacity(s.runs, s.providers) && r in s.runs && s.runs[r].offeredTo.None?
    ensures Capacity(Offered(s, r, c, interjection).runs, Offered(s, r, c, interjection).providers)
  {
    var s' := Offered(s, r, c, interjection);
    var run := s'.runs[r];
    forall k ensures ProviderOf(s'.providers, k).inFlight == |Holding(s'.runs, k)| {
      HoldingChanges(s.runs, r, run, k);
      assert ProviderOf(s.providers, k).inFlight == |Holding(s.runs, k)|;
      assert r !in Holding(s.runs, k);
      assert Holding(s'.runs, k) == if k == c.key then Holding(s.runs, k) + {r} else Holding(s.runs, k) - {r};
    }
  }

  // ---- changing one run -------------------------------------------------------------

  predicate SameIdentity(a: Run, b: Run) {
    a.agent == b.agent && a.thread == b.thread && a.addressed == b.addressed && a.arrival == b.arrival
    && a.queuedAt == b.queuedAt && a.validInput == b.validInput
  }

  /** The same run before the same owner, under the same roster and clock. */
  lemma Undisturbed(s: State, s': State, q: RunId)
    requires q in s.runs && q in s'.runs && s'.runs[q] == s.runs[q] && RunOK(s, q)
    requires s.runs[q].thread in s'.threads && s'.threads[s.runs[q].thread] == s.threads[s.runs[q].thread]
    requires s'.serving == s.serving && s'.unservedSince == s.unservedSince
    requires s'.lastSweep == s.lastSweep && s'.timeout == s.timeout
    requires s'.ledger == s.ledger && (s'.offers == s.offers || NotPassed(s'.offers, s.runs[q]))
    ensures RunOK(s', q)
  {
  }

  lemma RunsAfterSet(s: State, s': State, r: RunId, run: Run, x: set<RunId>)
    requires RunsOK(s, x) && r in x && r in s.runs
    requires s' == s.(runs := s.runs[r := run], providers := s'.providers)
    ensures RunsOK(s', x)
  {
    forall q | q in s'.runs && q !in x ensures RunOK(s', q) { Undisturbed(s, s', q); }
  }

  lemma ThreadsAfterSet(s: State, s': State, r: RunId, run: Run)
    requires ThreadsOK(s.runs, s.threads) && r in s.runs && s.runs[r].thread == run.thread
    requires s'.runs == s.runs[r := run] && s'.threads == s.threads
    ensures ThreadsOK(s'.runs, s'.threads)
  {
    forall t | t in s'.threads ensures ThreadShape(s'.runs, s'.threads[t], t) {
      assert ThreadShape(s.runs, s.threads[t], t);
      InboxAfterSet(s, s', t);
    }
  }

  lemma BooksAfterSet(s: State, s': State, r: RunId, run: Run, x: set<RunId>, busy: Focus)
    requires Books(s) && r in s.runs && SameIdentity(s.runs[r], run) && Working(s.runs, s.threads, x, busy)
    requires s' == s.(runs := s.runs[r := run], providers := s'.providers, offers := s'.offers)
    ensures Books(s') && Working(s'.runs, s'.threads, x, busy)
  {
    WorkingAfterSet(s.runs, s.threads, r, run, x, busy);
    hide Working;
  }

  lemma WorkingAfterSet(runs: map<RunId, Run>, threads: map<ThreadId, ThreadHandler>, r: RunId, run: Run, x: set<RunId>,
                        busy: Focus)
    requires r in runs && SameIdentity(runs[r], run) && Working(runs, threads, x, busy)
    ensures Working(runs[r := run], threads, x, busy)
  {
  }

  /** While an owner works on a run, it may rewrite any of its fields but the place it holds. */
  lemma SetRunKeeps(s: State, r: RunId, run: Run, x: set<RunId>, busy: Focus)
    requires Inv(s, x, busy) && r in x && r in s.runs
    requires SameIdentity(s.runs[r], run) && run.offeredTo == s.runs[r].offeredTo
    ensures Inv(SetRun(s, r, run), x, busy)
  {
    hide Books, Roster, Capacity, Working, ThreadsOK, Rested, RunsOK, DoneOK, Ledger, Lines, OffersOK;
    var s' := SetRun(s, r, run);
    CapacityAfterSet(s, s', r, run);
    RunsAfterSet(s, s', r, run, x);
    ThreadsAfterSet(s, s', r, run);
    BooksAfterSet(s, s', r, run, x, busy);
    RestedAfterSet(s, s', r, run, x, busy);
    LinesAfterSet(s.runs, s.threads, r, run);
  }

  lemma RestedAfterSet(s: State, s': State, r: RunId, run: Run, x: set<RunId>, busy: Focus)
    requires Working(s.runs, s.threads, x, busy) && ThreadsOK(s.runs, s.threads) && r in x && Rested(s, busy)
    requires s' == s.(runs := s.runs[r := run])
    ensures Rested(s', busy)
  {
    forall t | t in s'.threads && !On(busy, t) ensures Alive(s'.threads[t]) && (busy.Freeing? || Awake(s', t)) {
      assert ThreadShape(s.runs, s.threads[t], t);
      assert s.threads[t].queue != [] ==> s.threads[t].queue[0] in s.threads[t].live;
      assert s.threads[t].queue != [] ==> s.threads[t].queue[0] != r;
    }
  }

  lemma InboxAfterSet(s: State, s': State, t: ThreadId)
    requires t in s.threads && t in s'.threads && InboxShape(s.runs, s.threads[t], t)
    requires s'.threads[t].inbox == s.threads[t].inbox && s'.threads[t].live <= s.threads[t].live
    requires forall q :: q in s.runs && s.runs[q].thread == t && q !in s.threads[t].live ==>
             q in s'.runs && s'.runs[q].thread == s.runs[q].thread
    ensures InboxShape(s'.runs, s'.threads[t], t)
  {
    forall i | 0 <= i < |s'.threads[t].inbox| ensures MessageOK(s'.runs, s'.threads[t], t, s'.threads[t].inbox[i]) {
      assert MessageOK(s.runs, s.threads[t], t, s.threads[t].inbox[i]);
    }
  }

  /** A place given back before its news is out: from here until the run is settled
      nothing is promised about who has been woken. */
  lemma ReleaseKeeps(s: State, r: RunId, x: set<RunId>, t: ThreadId)
    requires Inv(s, x, Busy(t)) && r in x && r in s.runs
    ensures Inv(Release(s, r), x, Freeing(t))
  {
    hide Books, Roster, Capacity, Working, ThreadsOK, Rested, RunsOK, DoneOK, Ledger, Lines, OffersOK;
    var s' := Release(s, r);
    var run := s'.runs[r];
    CapacityAfterRelease(s, s', r, run);
    RunsAfterSet(s, s', r, run, x);
    ThreadsAfterSet(s, s', r, run);
    BooksAfterSet(s, s', r, run, x, Busy(t));
    FreeingFrom(s, s', x, t);
    RosterAfter(s, s');
    LinesAfterSet(s.runs, s.threads, r, run);
    LedgerAfter(s.ledger, s.providers, s'.providers, s.arrivals);
  }

  lemma FreeingFrom(s: State, s': State, x: set<RunId>, t: ThreadId)
    requires Rested(s, Busy(t)) && s'.threads == s.threads && Working(s'.runs, s'.threads, x, Busy(t))
    ensures Rested(s', Freeing(t)) && Working(s'.runs, s'.threads, x, Freeing(t))
  {
  }

  lemma RosterAfter(s: State, s': State)
    requires Roster(s.serving, s.servingOrder, s.providers) && s'.serving == s.serving &&
             s'.servingOrder == s.servingOrder
    requires forall k :: k in s.providers <==> k in s'.providers
    requires forall k :: k in s.providers ==> s'.providers[k].connection == s.providers[k].connection
    ensures Roster(s'.serving, s'.servingOrder, s'.providers)
  {
  }

  // ---- ending a run ---------------------------------------------------------------------

  /** What a run comes to when its owner settles it. */
  function Ended(run: Run): Run {
    run.(record := run.record + [EndOfStream], clockDue := false, offeredTo := None, offeredConn := None)
  }

  /** The state a settled run leaves, before anyone is told. */
  function Vacated(s: State, t: ThreadId, r: RunId): State
    requires t in s.threads && r in s.runs
  {
    var h := s.threads[t];
    s.(runs := s.runs - {r}, done := s.done[r := Ended(s.runs[r])], workToDo := true,
       threads := s.threads[t := h.(live := h.live - {r}, queue := RemoveFirst(h.queue, r))],
       providers := GiveBack(s.providers, s.runs[r].offeredTo))
  }

  lemma SettleIs(s: State, t: ThreadId, r: RunId)
    requires t in s.threads && r in s.runs
    ensures Settle(s, t, r) == PokeAll(Vacated(s, t, r))
  {
    var h := s.threads[t];
    var run := s.runs[r];
    var s0 := s.(runs := s.runs[r := run.(record := run.record + [EndOfStream], clockDue := false)],
                 threads := s.threads[t := h.(live := h.live - {r}, queue := RemoveFirst(h.queue, r))]);
    assert Release(s0, r).runs - {r} == s.runs - {r};
  }

  lemma PlacedAfterLeaving(q: RunId, run: Run, h: ThreadHandler, r: RunId)
    requires Placed(q, run, h) && Distinct(h.queue) && q != r
    ensures Placed(q, run, h.(live := h.live - {r}, queue := RemoveFirst(h.queue, r)))
  {
    RemoveFirstDrops(h.queue, r);
  }

  /** Losing a neighbour changes nothing for the runs that stay. */
  lemma StayerKeeps(s: State, t: ThreadId, r: RunId, q: RunId)
    requires t in s.threads && r in s.runs && ThreadShape(s.runs, s.threads[t], t)
    requires q in s.runs && q != r && RunOK(s, q)
    ensures RunOK(Vacated(s, t, r), q)
  {
    var s' := Vacated(s, t, r);
    assert s'.runs[q] == s.runs[q];
    if s.runs[q].thread == t {
      PlacedAfterLeaving(q, s.runs[q], s.threads[t], r);
    }
  }

  lemma VacatedThread(s: State, t: ThreadId, r: RunId, u: ThreadId)
    requires t in s.threads && r in s.runs && s.runs[r].thread == t && r in s.threads[t].live
    requires u in s.threads && ThreadShape(s.runs, s.threads[u], u)
    ensures ThreadShape(Vacated(s, t, r).runs, Vacated(s, t, r).threads[u], u)
  {
    var s' := Vacated(s, t, r);
    InboxAfterSet(s, s', u);
    RemoveFirstDrops(s.threads[u].queue, r);
  }

  lemma VacatedRuns(s: State, t: ThreadId, r: RunId, y: set<RunId>)
    requires t in s.threads && r in s.runs && ThreadShape(s.runs, s.threads[t], t) && RunsOK(s, y + {r})
    ensures RunsOK(Vacated(s, t, r), y)
  {
    var s' := Vacated(s, t, r);
    forall q | q in s'.runs && q !in y ensures RunOK(s', q) { StayerKeeps(s, t, r, q); }
  }

  lemma VacatedThreads(s: State, t: ThreadId, r: RunId, busy: Focus)
    requires t in s.threads && r in s.runs && s.runs[r].thread == t && r in s.threads[t].live
    requires ThreadsOK(s.runs, s.threads) && Rested(s, busy) && On(busy, t)
    ensures ThreadsOK(Vacated(s, t, r).runs, Vacated(s, t, r).threads) && Rested(Vacated(s, t, r), Busy(t))
  {
    var s' := Vacated(s, t, r);
    forall u | u in s'.threads ensures ThreadShape(s'.runs, s'.threads[u], u) { VacatedThread(s, t, r, u); }
  }

  lemma VacatedKeeps(s: State, t: ThreadId, r: RunId, y: set<RunId>, busy: Focus)
    requires Inv(s, y + {r}, busy) && r !in y && On(busy, t)
    requires t in s.threads && r in s.runs
    requires DoneShape(r, Ended(s.runs[r]))
    ensures Inv(Vacated(s, t, r), y, Busy(t))
  {
    hide Books, Roster, Capacity, ThreadsOK, Rested, RunsOK, DoneOK, Ledger, Lines, OffersOK, DoneShape, Vacated;
    assert r in y + {r};
    InvThread(s, y + {r}, busy, t);
    VacatedLines(s, t, r);
    VacatedPlaces(s, t, r);
    VacatedRuns(s, t, r, y);
    assert s.runs[r].thread == t && r in s.threads[t].live;
    VacatedThreads(s, t, r, busy);
    VacatedBooks(s, t, r);
    VacatedWork(s, t, r, y, busy);
  }

  lemma VacatedPlaces(s: State, t: ThreadId, r: RunId)
    requires t in s.threads && r in s.runs && Capacity(s.runs, s.providers)
    requires Roster(s.serving, s.servingOrder, s.providers) && Ledger(s.ledger, s.providers, s.arrivals)
    ensures var s' := Vacated(s, t, r);
            && Capacity(s'.runs, s'.providers) && Roster(s'.serving, s'.servingOrder, s'.providers)
            && Ledger(s'.ledger, s'.providers, s'.arrivals)
  {
    var s' := Vacated(s, t, r);
    CapacityAfterRelease(s, s', r, Ended(s.runs[r]));
    RosterAfter(s, s');
    LedgerAfter(s.ledger, s.providers, s'.providers, s.arrivals);
  }

  lemma VacatedLines(s: State, t: ThreadId, r: RunId)
    requires t in s.threads && r in s.runs && Lines(s.runs, s.threads)
    ensures Lines(Vacated(s, t, r).runs, Vacated(s, t, r).threads)
  {
    var s' := Vacated(s, t, r);
    forall u | u in s'.threads ensures InLine(s'.runs, s'.threads[u]) {
      var h := s.threads[u];
      InLineLeaves(s.runs, h, r);
      if u == t { InLineWithout(s.runs, h.(queue := RemoveFirst(h.queue, r)), s'.threads[u], r); }
      else { InLineWithout(s.runs, h, h, r); }
    }
  }

  lemma VacatedWork(s: State, t: ThreadId, r: RunId, y: set<RunId>, busy: Focus)
    requires t in s.threads && r in s.runs && Working(s.runs, s.threads, y + {r}, busy) && r !in y && On(busy, t)
    requires DoneOK(s.done) && DoneShape(r, Ended(s.runs[r]))
    ensures Working(Vacated(s, t, r).runs, Vacated(s, t, r).threads, y, Busy(t))
    ensures DoneOK(Vacated(s, t, r).done)
  {
    assert forall q :: q in y ==> q in y + {r};
  }

  lemma VacatedBooks(s: State, t: ThreadId, r: RunId)
    requires Books(s) && t in s.threads && r in s.runs && OffersOK(s.offers, s.arrivals)
    ensures Books(Vacated(s, t, r)) && OffersOK(Vacated(s, t, r).offers, Vacated(s, t, r).arrivals)
  {
  }

  /** Settling the run an owner is working on restores the invariant for it. */
  lemma SettleKeeps(s: State, t: ThreadId, r: RunId, y: set<RunId>, busy: Focus)
    requires Inv(s, y + {r}, busy) && r !in y && On(busy, t)
    requires t in s.threads && r in s.runs
    requires DoneShape(r, Ended(s.runs[r]))
    ensures Inv(Settle(s, t, r), y, Busy(t))
    ensures var s' := Settle(s, t, r);
            && s'.runs == s.runs - {r} && t in s'.threads
            && s'.threads[t].queue == RemoveFirst(s.threads[t].queue, r)
            && s'.workToDo
  {
    VacatedKeeps(s, t, r, y, busy);
    SettleIs(s, t, r);
    PokeAllIsNoise(Vacated(s, t, r));
    NoiseKeeps(Vacated(s, t, r), Settle(s, t, r), y, Busy(t));
  }

  // ---- how records come to an end ------------------------------------------------------

  /** The last word on a run nobody held. */
  lemma UntakenEnds(r: RunId, run: Run, c: Command)
    requires run.heard <= run.posted && run.claimedBy.None?
    requires c.Fail? || c.RequestCancel?
    requires run.record == [] || (|run.record| == 1 && IsCommand(run.record[0], None) && run.record[0].command.Offer?)
    ensures DoneShape(r, Ended(Logged(run, c)))
  {
    var done := Ended(Logged(run, c));
    assert done.record[..|done.record| - 1] == Logged(run, c).record;
  }

  /** The last word on a run its provider held: the provider's own, or funduq's. */
  lemma HeldRecordEnds(record: seq<Entry>, k: Key, e: Entry)
    requires HeldRecord(record, k) && LastWord(e, Some(k))
    ensures TakenRecord(record + [e], k)
  {
  }

  lemma TakenEnds(r: RunId, run: Run, k: Key, heard: seq<Message>, c: Command)
    requires HeldBy(r, run.(heard := heard), k) && run.claimedBy == Some(k)
    requires (c.Fail? && run.heard == heard) || (c.FinishStream? && run.heard == heard + [Said(r, k, c)])
    requires run.heard <= run.posted
    ensures DoneShape(r, Ended(Logged(run, c)))
  {
    hide Speech, SaidBy, HeldRecord, TakenRecord;
    var done, e := Ended(Logged(run, c)), Did(c, Some(k), run.cancelRequested);
    var told := done.record[..|done.record| - 1];
    assert told == run.record + [e];
    HeldRecordEnds(run.record, k, e);
    SpeechGrows(run.record, e);
    if c.FinishStream? {
      assert run.heard[run.claimedAt..] == heard[run.claimedAt..] + [Said(r, k, c)];
      SaidByGrows(heard[run.claimedAt..], Said(r, k, c), k);
    }
  }

  /** A malformed event is recorded as said, and ends the run. */
  lemma PoisonEnds(r: RunId, run: Run, k: Key, heard: seq<Message>, c: Command)
    requires HeldBy(r, run.(heard := heard), k) && run.claimedBy == Some(k)
    requires c.RelayEvent? && Malformed(c.event) && run.heard == heard + [Said(r, k, c)]
    requires run.heard <= run.posted
    ensures DoneShape(r, Ended(Logged(Logged(run, c), Fail(ProviderSentMalformedEvent, POISON))))
  {
    hide Speech, SaidBy, HeldRecord, TakenRecord;
    var e1 := Did(c, Some(k), run.cancelRequested);
    var e2 := Did(Fail(ProviderSentMalformedEvent, POISON), Some(k), run.cancelRequested);
    var done := Ended(Logged(Logged(run, c), Fail(ProviderSentMalformedEvent, POISON)));
    var told := done.record[..|done.record| - 1];
    assert told == run.record + [e1] + [e2];
    assert TakenRecord(told, k) by { PoisonedRecord(run.record, k, e1, e2); }
    assert Speech(told) == SaidBy(run.heard[run.claimedAt..], k) by {
      SpeechGrows(run.record, e1);
      SpeechGrows(run.record + [e1], e2);
      assert run.heard[run.claimedAt..] == heard[run.claimedAt..] + [Said(r, k, c)];
      SaidByGrows(heard[run.claimedAt..], Said(r, k, c), k);
    }
  }

  lemma PoisonedRecord(record: seq<Entry>, k: Key, e1: Entry, e2: Entry)
    requires HeldRecord(record, k) && MidEntry(e1, k) && LastWord(e2, Some(k))
    requires e2.command == Fail(ProviderSentMalformedEvent, POISON)
    ensures TakenRecord(record + [e1] + [e2], k)
  {
  }

  // ---- offers -----------------------------------------------------------------------------

  /** Everything about a waiting run but its place in the queue. */
  predicate Ready(s: State, t: ThreadId, r: RunId) {
    && t in s.threads && r in s.runs && s.runs[r].thread == t
    && var run := s.runs[r]; var inbox := s.threads[t].inbox;
       && Waiting(run) && CancelKept(r, run, inbox) && Heard(r, run, inbox) && Clean(s.ledger, s.offers, r, run)
       && NotOverdue(r, run, inbox, run.agent in s.serving, Slack(s, run))
  }

  lemma OfferedRun(s: State, t: ThreadId, r: RunId, c: Connection, interjection: bool)
    requires Ready(s, t, r) && r in s.threads[t].live
    requires if interjection then r !in s.threads[t].queue
             else s.threads[t].queue != [] && s.threads[t].queue[0] == r
    ensures RunOK(Offered(s, r, c, interjection), r)
  {
  }

  lemma OfferedRested(s: State, t: ThreadId, r: RunId, c: Connection, interjection: bool)
    requires t in s.threads && r in s.runs && s.runs[r].thread == t
    requires Roster(s.serving, s.servingOrder, s.providers) && ThreadsOK(s.runs, s.threads) && Rested(s, Busy(t)) &&
             Serving(s, s.runs[r].agent) == Some(c)
    ensures Roster(Offered(s, r, c, interjection).serving, Offered(s, r, c, interjection).servingOrder,
                   Offered(s, r, c, interjection).providers)
    ensures ThreadsOK(Offered(s, r, c, interjection).runs, Offered(s, r, c, interjection).threads)
    ensures Rested(Offered(s, r, c, interjection), Busy(t))
  {
    var s' := Offered(s, r, c, interjection);
    assert c.key in s.providers;
    RosterAfter(s, s');
    forall u | u in s'.threads ensures ThreadShape(s'.runs, s'.threads[u], u) {
      assert ThreadShape(s.runs, s.threads[u], u);
      InboxAfterSet(s, s', u);
    }
    forall u | u in s'.threads && u != t ensures Alive(s'.threads[u]) && Awake(s', u) {
      assert Awake(s, u) && ThreadShape(s.runs, s.threads[u], u);
      var h := s.threads[u];
      if h.queue != [] {
        assert h.queue[0] in h.live && h.queue[0] != r;
        LessRoom(s, s', s.runs[h.queue[0]].agent);
      }
    }
  }

  lemma LessRoom(s: State, s': State, a: AgentRef)
    requires s'.serving == s.serving
    requires forall k :: ProviderOf(s'.providers, k).connection == ProviderOf(s.providers, k).connection
                      && ProviderOf(s'.providers, k).declared == ProviderOf(s.providers, k).declared
                      && ProviderOf(s'.providers, k).inFlight >= ProviderOf(s.providers, k).inFlight
    ensures CanOffer(s', a) ==> CanOffer(s, a)
  {
  }

  /** Offering the ordinary head passes nobody. */
  lemma NobodyPassed(s: State, t: ThreadId, r: RunId, q: RunId, note: OfferNote)
    requires t in s.threads && r in s.runs && q in s.runs && q != r && RunOK(s, q)
    requires Lines(s.runs, s.threads) && s.runs[r].thread == t
    requires note == OfferNote(r, t, s.runs[r].arrival, s.runs[r].addressed.None?)
    requires note.ordinary ==> s.threads[t].queue != [] && s.threads[t].queue[0] == r
    ensures NotPassed(s.offers + [note], s.runs[q])
  {
    var h := s.threads[t];
    var run := s.runs[q];
    if note.ordinary && run.thread == t && Idle(run) && run.addressed.None? {
      assert Placed(q, run, h) && InLine(s.runs, h);
      assert Before(s.runs, r, q) by {
        if q in h.queue {
          var j :| 0 <= j < |h.queue| && h.queue[j] == q;
          assert Before(s.runs, h.queue[0], h.queue[j]);
        } else {
          var j :| 0 <= j < |h.inbox| && h.inbox[j] == Queued(q);
          assert Before(s.runs, h.queue[0], h.inbox[j].run);
        }
      }
    }
  }

  lemma OfferedRuns(s: State, t: ThreadId, r: RunId, c: Connection, interjection: bool, y: set<RunId>)
    requires RunsOK(s, y + {r}) && Ready(s, t, r) && r in s.threads[t].live && Lines(s.runs, s.threads)
    requires if interjection then r !in s.threads[t].queue && s.runs[r].addressed.Some?
             else s.threads[t].queue != [] && s.threads[t].queue[0] == r
    ensures RunsOK(Offered(s, r, c, interjection), y)
  {
    var s' := Offered(s, r, c, interjection);
    forall q | q in s'.runs && q !in y ensures RunOK(s', q) {
      if q == r { OfferedRun(s, t, r, c, interjection); }
      else {
        NobodyPassed(s, t, r, q, OfferNote(r, t, s.runs[r].arrival, s.runs[r].addressed.None?));
        Undisturbed(s, s', q);
      }
    }
  }

  /** A new offer comes after every earlier ordinary one on its thread. */
  lemma OfferedInOrder(s: State, r: RunId, c: Connection, interjection: bool)
    requires Books(s) && OffersOK(s.offers, s.arrivals) && r in s.runs && Idle(s.runs[r]) &&
             NotPassed(s.offers, s.runs[r])
    ensures var s' := Offered(s, r, c, interjection); OffersOK(s'.offers, s'.arrivals)
  {
  }

  lemma WorkingLess(runs: map<RunId, Run>, threads: map<ThreadId, ThreadHandler>, r: RunId, y: set<RunId>, busy: Focus)
    requires Working(runs, threads, y + {r}, busy)
    ensures Working(runs, threads, y, busy)
    ensures r in runs && runs[r].thread in threads && r in threads[runs[r].thread].live
  {
    assert r in y + {r};
    assert forall q :: q in y ==> q in y + {r};
  }

  lemma OfferedKeeps(s: State, t: ThreadId, r: RunId, c: Connection, interjection: bool, y: set<RunId>)
    requires Inv(s, y + {r}, Busy(t)) && r !in y && Ready(s, t, r)
    requires Serving(s, s.runs[r].agent) == Some(c)
    requires if interjection then r !in s.threads[t].queue && s.runs[r].addressed.Some?
             else s.threads[t].queue != [] && s.threads[t].queue[0] == r
    ensures Inv(Offered(s, r, c, interjection), y, Busy(t))
  {
    hide Books, Roster, Capacity, Working, ThreadsOK, Rested, RunsOK, DoneOK, Ledger, Lines, OffersOK;
    CapacityAfterOffer(s, r, c, interjection);
    var s' := Offered(s, r, c, interjection);
    BooksAfterSet(s, s', r, s'.runs[r], y + {r}, Busy(t));
    WorkingLess(s.runs, s.threads, r, y, Busy(t));
    WorkingLess(s'.runs, s'.threads, r, y, Busy(t));
    OfferedRested(s, t, r, c, interjection);
    OfferedRuns(s, t, r, c, interjection, y);
    OfferedInOrder(s, r, c, interjection);
    LinesAfterSet(s.runs, s.threads, r, s'.runs[r]);
    LedgerAfter(s.ledger, s.providers, s'.providers, s.arrivals);
  }

  // ---- moving a run within its thread ------------------------------------------------------

  /** One thread's queue rearranged around `r`: nobody else enters, leaves or loses the head. */
  ghost predicate Rearranged(q: seq<RunId>, q': seq<RunId>, r: RunId) {
    && Distinct(q')
    && (forall x :: x != r ==> (x in q <==> x in q'))
    && (q != [] && q[0] != r ==> q' != [] && q'[0] == q[0])
  }

  function WithQueue(s: State, t: ThreadId, q: seq<RunId>): State
    requires t in s.threads
  {
    s.(threads := s.threads[t := s.threads[t].(queue := q)])
  }

  lemma RearrangedRun(s: State, t: ThreadId, q: seq<RunId>, r: RunId, x: RunId)
    requires t in s.threads && x in s.runs && RunOK(s, x) && x != r && Rearranged(s.threads[t].queue, q, r)
    ensures RunOK(WithQueue(s, t, q), x)
  {
  }

  lemma RearrangedRuns(s: State, t: ThreadId, q: seq<RunId>, r: RunId, x: set<RunId>, busy: Focus)
    requires RunsOK(s, x) && t in s.threads && Rearranged(s.threads[t].queue, q, r) && r in x
    requires Books(s) && Working(s.runs, s.threads, x, busy)
    ensures RunsOK(WithQueue(s, t, q), x) && Books(WithQueue(s, t, q))
    ensures Working(WithQueue(s, t, q).runs, WithQueue(s, t, q).threads, x, busy)
  {
    var s' := WithQueue(s, t, q);
    forall z | z in s'.runs && z !in x ensures RunOK(s', z) { RearrangedRun(s, t, q, r, z); }
  }

  lemma RearrangedKeeps(s: State, t: ThreadId, q: seq<RunId>, r: RunId, x: set<RunId>)
    requires Inv(s, x, Busy(t)) && t in s.threads && Rearranged(s.threads[t].queue, q, r)
    requires r in x && r in s.threads[t].live && InLine(s.runs, s.threads[t].(queue := q))
    ensures Inv(WithQueue(s, t, q), x, Busy(t))
  {
    hide Books, Roster, Capacity, Working, ThreadsOK, Rested, RunsOK, DoneOK, Ledger, Lines, OffersOK;
    RearrangedRuns(s, t, q, r, x, Busy(t));
    RearrangedThreads(s, t, q, r);
    RearrangedLines(s, t, q);
  }

  lemma RearrangedLines(s: State, t: ThreadId, q: seq<RunId>)
    requires t in s.threads && Lines(s.runs, s.threads) && InLine(s.runs, s.threads[t].(queue := q))
    ensures Lines(WithQueue(s, t, q).runs, WithQueue(s, t, q).threads)
  {
  }

  lemma InvLine(s: State, x: set<RunId>, busy: Focus, t: ThreadId)
    requires Inv(s, x, busy) && t in s.threads
    ensures InLine(s.runs, s.threads[t])
  {
  }

  lemma RearrangedThreads(s: State, t: ThreadId, q: seq<RunId>, r: RunId)
    requires t in s.threads && ThreadsOK(s.runs, s.threads) && Rested(s, Busy(t)) && r in s.threads[t].live
    requires Rearranged(s.threads[t].queue, q, r)
    ensures ThreadsOK(WithQueue(s, t, q).runs, WithQueue(s, t, q).threads) && Rested(WithQueue(s, t, q), Busy(t))
  {
    var s' := WithQueue(s, t, q);
    forall u | u in s'.threads ensures ThreadShape(s'.runs, s'.threads[u], u) {
      assert ThreadShape(s.runs, s.threads[u], u);
      InboxAfterSet(s, s', u);
    }
  }

  /** A run under its owner's hands that fits its place again is no longer exempt. */
  lemma Rejoins(s: State, r: RunId, y: set<RunId>, busy: Focus)
    requires Inv(s, y + {r}, busy) && RunOK(s, r)
    ensures Inv(s, y, busy)
  {
    hide Books, Roster, Capacity, ThreadsOK, Rested, DoneOK, Ledger, Lines, OffersOK, RunOK;
    assert forall q :: q in y ==> q in y + {r};
  }

  lemma Exempts(s: State, t: ThreadId, r: RunId, y: set<RunId>)
    requires Inv(s, y, Busy(t)) && t in s.threads && r in s.threads[t].live
    ensures Inv(s, y + {r}, Busy(t))
  {
    hide Books, Roster, Capacity, ThreadsOK, Rested, DoneOK, Ledger, Lines, OffersOK, RunOK;
    InvThread(s, y, Busy(t), t);
  }

  lemma InsertSecondRearranges(q: seq<RunId>, r: RunId)
    requires Distinct(q) && r !in q
    ensures Rearranged(q, InsertSecond(q, r), r) && r in InsertSecond(q, r)
  {
    var q' := InsertSecond(q, r);
    var i := if |q| < 1 then |q| else 1;
    assert q' == q[..i] + [r] + q[i..] && q == q[..i] + q[i..];
    assert forall x :: x in q' <==> x in q || x == r;
  }

  lemma NoRoomKeeps(s: State, t: ThreadId, r: RunId, interjection: bool, y: set<RunId>)
    requires Inv(s, y + {r}, Busy(t)) && Ready(s, t, r) && !CanOffer(s, s.runs[r].agent)
    requires s.threads[t].queue != []
    requires if interjection then r !in s.threads[t].queue && s.runs[r].addressed.Some? else s.threads[t].queue[0] == r
    ensures Inv(OfferTo(s, t, r, interjection), y, Busy(t))
  {
    hide Inv, Fits, InLine;
    assert r in y + {r};
    assert r in s.threads[t].live by { InvWorking(s, y + {r}, Busy(t), r); }
    if interjection {
      var q := InsertSecond(s.threads[t].queue, r);
      InvThread(s, y + {r}, Busy(t), t);
      InvLine(s, y + {r}, Busy(t), t);
      InsertSecondRearranges(s.threads[t].queue, r);
      InLineJoins(s.runs, s.threads[t], r);
      RearrangedKeeps(s, t, q, r, y + {r});
      WaitingFits(WithQueue(s, t, q), t, r);
      Rejoins(WithQueue(s, t, q), r, y, Busy(t));
    } else {
      WaitingFits(s, t, r);
      Rejoins(s, r, y, Busy(t));
    }
  }

  lemma InvWorking(s: State, x: set<RunId>, busy: Focus, r: RunId)
    requires Inv(s, x, busy) && r in x
    ensures r in s.runs && s.runs[r].thread in s.threads && r in s.threads[s.runs[r].thread].live
  {
  }

  lemma WaitingFits(s: State, t: ThreadId, r: RunId)
    requires Ready(s, t, r) && r in s.threads[t].live && r in s.threads[t].queue
    ensures RunOK(s, r)
  {
  }

  lemma InvalidKeeps(s: State, t: ThreadId, r: RunId, y: set<RunId>)
    requires Inv(s, y + {r}, Busy(t)) && r !in y && Ready(s, t, r)
    ensures Inv(Settle(Log(s, r, Fail(InputDoesNotValidate, INVALID_INPUT)), t, r), y, Busy(t))
    ensures Settle(Log(s, r, Fail(InputDoesNotValidate, INVALID_INPUT)), t, r).workToDo
  {
    var c := Fail(InputDoesNotValidate, INVALID_INPUT);
    assert r in y + {r};
    SetRunKeeps(s, r, Logged(s.runs[r], c), y + {r}, Busy(t));
    UntakenEnds(r, s.runs[r], c);
    SettleKeeps(Log(s, r, c), t, r, y, Busy(t));
  }

  /** Making an offer, finding no room for one, or finding that there is nothing to
      offer: whichever it is, the run fits its place again or is over. */
  lemma OfferKeeps(s: State, t: ThreadId, r: RunId, interjection: bool, y: set<RunId>)
    requires Inv(s, y + {r}, Busy(t)) && r !in y && Ready(s, t, r)
    requires s.threads[t].queue != []
    requires if interjection then r !in s.threads[t].queue && s.runs[r].addressed.Some? else s.threads[t].queue[0] == r
    ensures Inv(OfferTo(s, t, r, interjection), y, Busy(t))
  {
    if !CanOffer(s, s.runs[r].agent) {
      NoRoomKeeps(s, t, r, interjection, y);
    } else if !s.runs[r].validInput {
      InvalidKeeps(s, t, r, y);
    } else {
      OfferedKeeps(s, t, r, Serving(s, s.runs[r].agent).value, interjection, y);
    }
  }

  lemma VacatedNeighbours(s: State, t: ThreadId, r: RunId, c: Command)
    requires t in s.threads && r in s.runs && Distinct(s.threads[t].queue)
    ensures Neighbours(s, Vacated(Log(s, r, c), t, r), t, r)
  {
    RemoveFirstDrops(s.threads[t].queue, r);
  }

  lemma PokedNeighbours(s: State, s': State, t: ThreadId, r: RunId)
    requires Neighbours(s, s', t, r)
    ensures Neighbours(s, PokeAll(s'), t, r)
  {
  }

  lemma SettleNeighbours(s: State, t: ThreadId, r: RunId, c: Command)
    requires t in s.threads && r in s.runs && Distinct(s.threads[t].queue)
    ensures Neighbours(s, Settle(Log(s, r, c), t, r), t, r)
  {
    hide Neighbours, Vacated;
    SettleIs(Log(s, r, c), t, r);
    VacatedNeighbours(s, t, r, c);
    PokedNeighbours(s, Vacated(Log(s, r, c), t, r), t, r);
  }

  lemma OfferedNeighbours(s: State, t: ThreadId, r: RunId, c: Connection, interjection: bool)
    requires t in s.threads && r in s.runs
    ensures Neighbours(s, Offered(s, r, c, interjection), t, r)
  {
  }

  lemma InsertedNeighbours(s: State, t: ThreadId, r: RunId)
    requires t in s.threads && Distinct(s.threads[t].queue) && r !in s.threads[t].queue
    ensures Neighbours(s, WithQueue(s, t, InsertSecond(s.threads[t].queue, r)), t, r)
  {
    InsertSecondRearranges(s.threads[t].queue, r);
  }

  lemma OfferNeighbours(s: State, t: ThreadId, r: RunId, interjection: bool)
    requires t in s.threads && r in s.runs && Distinct(s.threads[t].queue)
    requires interjection ==> r !in s.threads[t].queue
    ensures Neighbours(s, OfferTo(s, t, r, interjection), t, r)
  {
    hide Settle, Offered;
    if !CanOffer(s, s.runs[r].agent) {
      if interjection { InsertedNeighbours(s, t, r); }
    } else if !s.runs[r].validInput {
      SettleNeighbours(s, t, r, Fail(InputDoesNotValidate, INVALID_INPUT));
    } else {
      OfferedNeighbours(s, t, r, Serving(s, s.runs[r].agent).value, interjection);
    }
  }

  /** An owner that has just tried its head leaves nothing it could have done. */
  lemma OfferedHeadIsAwake(s: State, t: ThreadId, r: RunId)
    requires Inv(s, {r}, Busy(t)) && Ready(s, t, r)
    requires s.threads[t].queue != [] && s.threads[t].queue[0] == r
    ensures t in OfferTo(s, t, r, false).threads && Awake(OfferTo(s, t, r, false), t)
  {
    if CanOffer(s, s.runs[r].agent) && !s.runs[r].validInput {
      assert {} + {r} == {r};
      InvalidKeeps(s, t, r, {});
      SettleIs(Log(s, r, Fail(InputDoesNotValidate, INVALID_INPUT)), t, r);
    }
  }

  /** Nothing happened to the other runs of the thread, and the head, if it was
      another run, is still the head. */
  ghost predicate Neighbours(s: State, s': State, t: ThreadId, r: RunId) {
    var holds :=
      && t in s.threads && t in s'.threads && s'.serving == s.serving && s'.ledger == s.ledger
      && (forall q :: q != r ==> (q in s.runs <==> q in s'.runs))
      && (forall q :: q != r && q in s.runs ==> s'.runs[q] == s.runs[q])
      && (forall q :: q != r ==> (q in s.threads[t].queue <==> q in s'.threads[t].queue))
      && (forall q :: q != r ==> (q in s.threads[t].live <==> q in s'.threads[t].live))
      && (s.threads[t].queue != [] && s.threads[t].queue[0] != r ==>
            s'.threads[t].queue != [] && s'.threads[t].queue[0] == s.threads[t].queue[0])
      && NoisyInbox(s.threads[t].inbox, s'.threads[t].inbox);
    holds
  }

  /** The head of the queue is untouched, however many joined it. */
  ghost predicate HeadStays(s: State, s': State, t: ThreadId, head: RunId) {
    var holds :=
      && t in s.threads && t in s'.threads && s'.serving == s.serving && s'.ledger == s.ledger
      && head in s.runs && head in s'.runs && s'.runs[head] == s.runs[head]
      && (head in s.threads[t].live ==> head in s'.threads[t].live)
      && s'.threads[t].queue != [] && s'.threads[t].queue[0] == head
      && NoisyInbox(s.threads[t].inbox, s'.threads[t].inbox);
    holds
  }

  // ---- interjections ------------------------------------------------------------------

  lemma JoinOneKeeps(s: State, t: ThreadId, r: RunId, y: set<RunId>)
    requires Inv(s, y, Busy(t)) && t in s.threads && r !in y
    requires r in s.threads[t].queue && s.threads[t].queue[0] != r && s.runs[r].thread == t && s.runs[r].addressed.Some?
    ensures Inv(JoinOne(s, t, r), y, Busy(t))
    ensures Neighbours(s, JoinOne(s, t, r), t, r)
  {
    hide Inv, Fits, InLine;
    var q := RemoveFirst(s.threads[t].queue, r);
    var s1 := WithQueue(s, t, q);
    InvThread(s, y, Busy(t), t);
    InvRun(s, y, Busy(t), r);
    RemoveFirstDrops(s.threads[t].queue, r);
    Exempts(s, t, r, y);
    InvLine(s, y, Busy(t), t);
    InLineLeaves(s.runs, s.threads[t], r);
    RearrangedKeeps(s, t, q, r, y + {r});
    assert Ready(s1, t, r) by { QueuedIsReady(s, t, r); }
    OfferKeeps(s1, t, r, true, y);
    OfferNeighbours(s1, t, r, true);
    RemovedNeighbours(s, s1, JoinOne(s, t, r), t, r);
  }

  lemma QueuedIsReady(s: State, t: ThreadId, r: RunId)
    requires t in s.threads && r in s.runs && s.runs[r].thread == t && RunOK(s, r)
    requires r in s.threads[t].queue && s.threads[t].queue[0] != r && r in s.threads[t].live
    ensures forall q :: Ready(WithQueue(s, t, q), t, r)
  {
  }

  lemma RemovedNeighbours(s: State, s1: State, s2: State, t: ThreadId, r: RunId)
    requires t in s.threads && Distinct(s.threads[t].queue) && s1 == WithQueue(s, t, RemoveFirst(s.threads[t].queue, r))
    requires Neighbours(s1, s2, t, r)
    ensures Neighbours(s, s2, t, r)
  {
    RemoveFirstDrops(s.threads[t].queue, r);
  }

  /** `ids` are still to join, behind a head that stays. */
  ghost predicate ToJoin(s: State, t: ThreadId, ids: seq<RunId>, head: RunId, y: set<RunId>) {
    && t in s.threads && s.threads[t].queue != [] && s.threads[t].queue[0] == head
    && Distinct(ids) && head in s.runs
    && forall i :: 0 <= i < |ids| ==> WillJoin(s, t, ids[i], head, y)
  }

  predicate WillJoin(s: State, t: ThreadId, r: RunId, head: RunId, y: set<RunId>) {
    r != head && t in s.threads && r in s.threads[t].queue && r !in y && r in s.runs && s.runs[r].addressed.Some?
  }

  lemma OneJoined(s: State, s': State, t: ThreadId, ids: seq<RunId>, head: RunId, y: set<RunId>)
    requires ToJoin(s, t, ids, head, y) && ids != [] && Neighbours(s, s', t, ids[0])
    ensures ToJoin(s', t, ids[1..], head, y) && HeadStays(s, s', t, head)
  {
    forall i | 0 <= i < |ids[1..]|
      ensures WillJoin(s', t, ids[1..][i], head, y)
    {
      assert WillJoin(s, t, ids[i + 1], head, y);
      assert ids[1..][i] == ids[i + 1] && ids[i + 1] != ids[0];
    }
  }

  lemma {:induction false} JoinEachKeeps(s: State, t: ThreadId, ids: seq<RunId>, head: RunId, y: set<RunId>)
    requires Inv(s, y, Busy(t)) && ToJoin(s, t, ids, head, y)
    ensures Inv(JoinEach(s, t, ids), y, Busy(t))
    ensures HeadStays(s, JoinEach(s, t, ids), t, head)
    decreases |ids|
  {
    hide Inv, JoinOne;
    if ids != [] {
      InvThread(s, y, Busy(t), t);
      assert WillJoin(s, t, ids[0], head, y);
      JoinOneKeeps(s, t, ids[0], y);
      OneJoined(s, JoinOne(s, t, ids[0]), t, ids, head, y);
      JoinEachKeeps(JoinOne(s, t, ids[0]), t, ids[1..], head, y);
      HeadStaysOn(s, JoinOne(s, t, ids[0]), JoinEach(s, t, ids), t, head);
    }
  }

  lemma HeadStaysOn(a: State, b: State, c: State, t: ThreadId, head: RunId)
    requires HeadStays(a, b, t, head) && HeadStays(b, c, t, head)
    ensures HeadStays(a, c, t, head)
  {
  }

  lemma {:induction false} JoiningAreQueued(runs: map<RunId, Run>, q: seq<RunId>, head: RunId)
    requires Distinct(q)
    ensures Distinct(Joining(runs, q, head))
    ensures forall r :: r in Joining(runs, q, head) ==> r in q && r in runs && runs[r].addressed == Some(head)
  {
    if q != [] {
      assert q == [q[0]] + q[1..];
      assert Distinct(q[1..]) && q[0] !in q[1..];
      JoiningAreQueued(runs, q[1..], head);
    }
  }

  lemma JoiningPlan(s: State, t: ThreadId, head: RunId)
    requires t in s.threads && Distinct(s.threads[t].queue) && head in s.runs
    requires s.threads[t].queue != [] && s.threads[t].queue[0] == head
    ensures ToJoin(s, t, Joining(s.runs, s.threads[t].queue[1..], head), head, {head})
  {
    var q := s.threads[t].queue;
    assert Distinct(q[1..]) && head !in q[1..];
    JoiningAreQueued(s.runs, q[1..], head);
    var ids := Joining(s.runs, q[1..], head);
    forall i | 0 <= i < |ids| ensures WillJoin(s, t, ids[i], head, {head}) {
      assert ids[i] in ids;
    }
  }

  lemma ReleaseInterjectionsKeeps(s: State, t: ThreadId, head: RunId)
    requires Inv(s, {head}, Busy(t)) && t in s.threads && s.threads[t].queue != [] && s.threads[t].queue[0] == head
    ensures Inv(ReleaseInterjections(s, t, head), {head}, Busy(t))
    ensures HeadStays(s, ReleaseInterjections(s, t, head), t, head)
  {
    assert Distinct(s.threads[t].queue) by { assert ThreadShape(s.runs, s.threads[t], t); }
    assert head in {head};
    JoiningPlan(s, t, head);
    JoinEachKeeps(s, t, Joining(s.runs, s.threads[t].queue[1..], head), head, {head});
  }
}
