/** The rest of the broker's steps, and the invariant over every run of it. */
module BrokerSystem {
  import opened Vocabulary
  import opened BrokerSpec
  import opened BrokerInvariant
  import opened BrokerNoise
  import opened BrokerSteps
  import opened BrokerOwner

  // ---- posting about one run --------------------------------------------------------------

  lemma OneMore(inbox: seq<Message>, m: Message, r: RunId)
    ensures Statements(inbox + [m], r) == Statements(inbox, r) + (if IsStatement(m, r) then [m] else [])
    ensures FailIn(inbox, r) ==> FailIn(inbox + [m], r)
  {
    StatementsAppend(inbox, [m], r);
    assert [m][1..] == [];
    if FailIn(inbox, r) { FailInGrows(inbox, inbox + [m], r); }
  }

  /** Anything that is not a statement about a run leaves its fit alone. */
  lemma PostedBeside(q: RunId, run: Run, h: ThreadHandler, served: bool, slack: int, m: Message)
    requires Fits(q, run, h, served, slack) && !IsStatement(m, q)
    ensures Fits(q, run, Put(h, [m]), served, slack)
  {
    OneMore(h.inbox, m, q);
  }

  lemma StatementPosted(r: RunId, run: Run, h: ThreadHandler, served: bool, slack: int, m: Message)
    requires Fits(r, run, h, served, slack) && IsStatement(m, r)
    ensures Fits(r, run.(posted := run.posted + [m]), Put(h, [m]), served, slack)
  {
    OneMore(h.inbox, m, r);
    var run' := run.(posted := run.posted + [m]);
    assert RunShape(r, run') by {
      if run.claimedBy.Some? { assert HeldBy(r, run', run.claimedBy.value); }
    }
  }

  lemma CancelPosted(r: RunId, run: Run, h: ThreadHandler, served: bool, slack: int)
    requires Fits(r, run, h, served, slack)
    ensures Fits(r, run.(cancelRequested := true), Put(h, [CancelAsked(r)]), served, slack)
  {
    OneMore(h.inbox, CancelAsked(r), r);
    assert CancelAsked(r) in (h.inbox + [CancelAsked(r)]);
  }

  lemma LapsePosted(r: RunId, run: Run, h: ThreadHandler, served: bool, slack: int)
    requires Fits(r, run, h, served, slack)
    ensures Fits(r, run.(clockDue := false), Put(h, [OfferLapsed(r, run.offerId)]), served, slack)
  {
    hide Statements, FailIn, CancelRecorded, HeldRecord, Speech, SaidBy;
    OneMore(h.inbox, OfferLapsed(r, run.offerId), r);
    assert OfferLapsed(r, run.offerId) in (h.inbox + [OfferLapsed(r, run.offerId)]);
  }

  /** A door's message in, and the one field of the run it sets. */
  function PostedAs(s: State, r: RunId, run: Run, t: ThreadId, m: Message): State
    requires t in s.threads
  {
    s.(runs := s.runs[r := run], threads := s.threads[t := Put(s.threads[t], [m])])
  }

  lemma PostedRuns(s: State, r: RunId, run: Run, t: ThreadId, m: Message)
    requires RunsOK(s, {}) && r in s.runs && t == s.runs[r].thread && t in s.threads && run.agent == s.runs[r].agent
    requires run.thread == t && run.queuedAt == s.runs[r].queuedAt
    requires forall q :: q != r ==> !IsStatement(m, q)
    requires Fits(r, run, Put(s.threads[t], [m]), run.agent in s.serving, Slack(s, run))
    requires SameIdentity(s.runs[r], run) && (Idle(run) <==> Idle(s.runs[r])) &&
             run.notedAbnormal == s.runs[r].notedAbnormal
    ensures RunsOK(PostedAs(s, r, run, t, m), {})
  {
    hide Fits;
    var s' := PostedAs(s, r, run, t, m);
    forall q | q in s'.runs && q !in {} ensures RunOK(s', q) {
      assert RunOK(s, q);
      if q != r && s.runs[q].thread == t {
        PostedBeside(q, s.runs[q], s.threads[t], s.runs[q].agent in s.serving, Slack(s, s.runs[q]), m);
      }
    }
  }

  lemma PostedShape(runs: map<RunId, Run>, h: ThreadHandler, t: ThreadId, m: Message)
    requires ThreadShape(runs, h, t) && !m.Queued? && MessageOK(runs, h, t, m)
    ensures ThreadShape(runs, Put(h, [m]), t)
  {
    var h' := Put(h, [m]);
    forall i | 0 <= i < |h'.inbox| ensures MessageOK(runs, h', t, h'.inbox[i]) {
      if i < |h.inbox| { assert MessageOK(runs, h, t, h.inbox[i]); }
    }
    forall i, j | 0 <= i < j < |h'.inbox| && h'.inbox[j].Queued? ensures !About(h'.inbox[i], h'.inbox[j].run) {
      assert j < |h.inbox|;
      assert h'.inbox[i] == h.inbox[i] && h'.inbox[j] == h.inbox[j];
    }
  }

  lemma PostedThreads(s: State, r: RunId, run: Run, t: ThreadId, m: Message)
    requires ThreadsOK(s.runs, s.threads) && r in s.runs && t in s.threads && run.thread == s.runs[r].thread
    requires !m.Queued? && MessageOK(s.runs, s.threads[t], t, m)
    ensures var s' := PostedAs(s, r, run, t, m); ThreadsOK(s'.runs, s'.threads)
  {
    var s0 := SetRun(s, r, run);
    var s' := PostedAs(s, r, run, t, m);
    ThreadsAfterSet(s, s0, r, run);
    forall u | u in s'.threads ensures ThreadShape(s'.runs, s'.threads[u], u) {
      assert ThreadShape(s0.runs, s0.threads[u], u);
      if u == t { PostedShape(s0.runs, s0.threads[u], u, m); }
    }
  }

  lemma PostedRested(s: State, r: RunId, run: Run, t: ThreadId, m: Message)
    requires Rested(s, Nobody) && Books(s) && r in s.runs && t in s.threads
    requires SameIdentity(s.runs[r], run) && (Idle(run) <==> Idle(s.runs[r]))
    ensures var s' := PostedAs(s, r, run, t, m); Rested(s', Nobody) && Books(s')
  {
    var s' := PostedAs(s, r, run, t, m);
    forall u | u in s'.threads ensures Alive(s'.threads[u]) && Awake(s', u) { assert Awake(s, u); }
  }

  lemma PutLines(runs: map<RunId, Run>, threads: map<ThreadId, ThreadHandler>, t: ThreadId, m: Message)
    requires Lines(runs, threads) && t in threads && !m.Queued?
    ensures Lines(runs, threads[t := Put(threads[t], [m])])
  {
    InLineGrows(runs, threads[t], Put(threads[t], [m]));
  }

  lemma PostedKeeps(s: State, r: RunId, run: Run, t: ThreadId, m: Message)
    requires Inv(s, {}, Nobody) && r in s.runs && t == s.runs[r].thread && t in s.threads
    requires SameIdentity(s.runs[r], run) && run.offeredTo == s.runs[r].offeredTo && (Idle(run) <==> Idle(s.runs[r]))
    requires run.notedAbnormal == s.runs[r].notedAbnormal
    requires !m.Queued? && MessageOK(s.runs, s.threads[t], t, m) && forall q :: q != r ==> !IsStatement(m, q)
    requires Fits(r, run, Put(s.threads[t], [m]), run.agent in s.serving, Slack(s, run))
    ensures Inv(PostedAs(s, r, run, t, m), {}, Nobody)
  {
    hide Books, Roster, Capacity, ThreadsOK, Rested, RunsOK, DoneOK, Ledger, Lines, OffersOK, Fits;
    PostedRuns(s, r, run, t, m);
    PostedThreads(s, r, run, t, m);
    PostedRested(s, r, run, t, m);
    CapacityAfterSet(s, PostedAs(s, r, run, t, m), r, run);
    LinesAfterSet(s.runs, s.threads, r, run);
    PutLines(s.runs[r := run], s.threads, t, m);
  }

  lemma FitOf(s: State, r: RunId)
    requires Inv(s, {}, Nobody) && r in s.runs
    ensures s.runs[r].thread in s.threads
    ensures Fits(r, s.runs[r], s.threads[s.runs[r].thread], s.runs[r].agent in s.serving, Slack(s, s.runs[r]))
  {
  }

  lemma StatementKeeps(s: State, r: RunId, m: Message)
    requires Inv(s, {}, Nobody) && IsStatement(m, r) && (m.Said? ==> m.command.RelayEvent? || m.command.FinishStream?)
    ensures Inv(PostStatement(s, r, m), {}, Nobody)
  {
    hide Inv, Fits;
    if r in s.runs {
      var run := s.runs[r];
      FitOf(s, r);
      StatementPosted(r, run, s.threads[run.thread], run.agent in s.serving, Slack(s, run), m);
      PostedKeeps(s, r, run.(posted := run.posted + [m]), run.thread, m);
    }
  }

  lemma AskCancelKeeps(s: State, r: RunId)
    requires Inv(s, {}, Nobody)
    ensures Inv(AskCancel(s, r), {}, Nobody)
  {
    hide Inv, Fits;
    if r in s.runs {
      var run := s.runs[r];
      FitOf(s, r);
      CancelPosted(r, run, s.threads[run.thread], run.agent in s.serving, Slack(s, run));
      PostedKeeps(s, r, run.(cancelRequested := true), run.thread, CancelAsked(r));
    }
  }

  lemma ClockKeeps(s: State, r: RunId)
    requires Inv(s, {}, Nobody) && r in s.runs
    ensures Inv(ClockFires(s, r), {}, Nobody)
  {
    hide Inv, Fits;
    var run := s.runs[r];
    FitOf(s, r);
    LapsePosted(r, run, s.threads[run.thread], run.agent in s.serving, Slack(s, run));
    PostedKeeps(s, r, run.(clockDue := false), run.thread, OfferLapsed(r, run.offerId));
  }

  /** A message that is neither a statement nor a new run, dropped into an inbox. */
  lemma PutRuns(s: State, t: ThreadId, m: Message)
    requires RunsOK(s, {}) && t in s.threads && forall q :: !IsStatement(m, q)
    ensures RunsOK(PutAt(s, t, m), {})
  {
    var s' := PutAt(s, t, m);
    forall q | q in s'.runs && q !in {} ensures RunOK(s', q) {
      assert RunOK(s, q);
      if s.runs[q].thread == t {
        PostedBeside(q, s.runs[q], s.threads[t], s.runs[q].agent in s.serving, Slack(s, s.runs[q]), m);
      }
    }
  }

  lemma PutThreads(s: State, t: ThreadId, m: Message)
    requires ThreadsOK(s.runs, s.threads) && Rested(s, Nobody) && Books(s) && t in s.threads
    requires !m.Queued? && MessageOK(s.runs, s.threads[t], t, m)
    ensures var s' := PutAt(s, t, m); ThreadsOK(s'.runs, s'.threads) && Rested(s', Nobody) && Books(s')
  {
    PutShapes(s, t, m);
    PutRested(s, t, m);
    hide ThreadsOK, Rested;
  }

  lemma PutShapes(s: State, t: ThreadId, m: Message)
    requires ThreadsOK(s.runs, s.threads) && t in s.threads
    requires !m.Queued? && MessageOK(s.runs, s.threads[t], t, m)
    ensures ThreadsOK(PutAt(s, t, m).runs, PutAt(s, t, m).threads)
  {
    hide ThreadShape;
    var s' := PutAt(s, t, m);
    forall u | u in s'.threads ensures ThreadShape(s'.runs, s'.threads[u], u) {
      assert ThreadShape(s.runs, s.threads[u], u);
      if u == t { PostedShape(s.runs, s.threads[u], u, m); }
    }
  }

  lemma PutRested(s: State, t: ThreadId, m: Message)
    requires Rested(s, Nobody) && t in s.threads
    ensures Rested(PutAt(s, t, m), Nobody)
  {
    var s' := PutAt(s, t, m);
    forall u | u in s'.threads ensures Alive(s'.threads[u]) && Awake(s', u) { assert Awake(s, u); }
  }

  lemma PutKeeps(s: State, t: ThreadId, m: Message)
    requires Inv(s, {}, Nobody) && (m.Undelivered? || m.OfferLapsed? || (m.Trusted? && m.command.Fail?))
    ensures Inv(PutAt(s, t, m), {}, Nobody)
  {
    hide Books, Roster, Capacity, ThreadsOK, Rested, RunsOK, DoneOK, Ledger, Lines, OffersOK;
    if t in s.threads {
      PutRuns(s, t, m);
      PutThreads(s, t, m);
      PutLines(s.runs, s.threads, t, m);
    }
  }

  // ---- intake -------------------------------------------------------------------------------

  function HandlerFor(s: State, a: AgentRef, t: ThreadId): ThreadHandler {
    if t in s.threads then s.threads[t] else ThreadHandler(a, [], [], {})
  }

  lemma NoMention(inbox: seq<Message>, r: RunId)
    requires forall m :: m in inbox ==> m.Poke? || m.run != r
    ensures Statements(inbox + [Queued(r)], r) == []
  {
    OneMore(inbox, Queued(r), r);
    NoStatements(inbox, r);
  }

  lemma FreshFits(r: RunId, run: Run, h: ThreadHandler, served: bool, slack: int)
    requires Waiting(run) && run.posted == [] && run.heard == [] && !run.cancelRequested && 0 < slack
    requires r !in h.live && forall m :: m in h.inbox ==> m.Poke? || m.run != r
    ensures Fits(r, run, Put(h, [Queued(r)]), served, slack)
  {
    NoMention(h.inbox, r);
    assert Queued(r) in h.inbox + [Queued(r)];
  }

  lemma EnqueuedRun(s: State, r: RunId, a: AgentRef, t: ThreadId, addressed: Option<RunId>, valid: bool)
    requires ThreadsOK(s.runs, s.threads) && Fresh(s, r) && s.running && s.lastSweep <= s.now && 0 < s.timeout
    requires OffersOK(s.offers, s.arrivals) && !Marked(s.ledger, r)
    ensures RunOK(Enqueue(s, r, a, t, addressed, valid), r)
  {
    hide Fits, Marked;
    var s' := Enqueue(s, r, a, t, addressed, valid);
    assert NotPassed(s'.offers, s'.runs[r]);
    var h := HandlerFor(s, a, t);
    assert r !in h.live by { if t in s.threads { assert ThreadShape(s.runs, s.threads[t], t); } }
    FreshFits(r, s'.runs[r], h, a in s'.serving, Slack(s', s'.runs[r]));
  }

  lemma EnqueuedRuns(s: State, r: RunId, a: AgentRef, t: ThreadId, addressed: Option<RunId>, valid: bool)
    requires RunsOK(s, {}) && r !in s.runs && s.running
    requires RunOK(Enqueue(s, r, a, t, addressed, valid), r)
    ensures RunsOK(Enqueue(s, r, a, t, addressed, valid), {})
  {
    hide Fits;
    var s' := Enqueue(s, r, a, t, addressed, valid);
    forall q | q in s'.runs && q !in {} ensures RunOK(s', q) {
      if q != r {
        assert RunOK(s, q);
        if s.runs[q].thread == t {
          PostedBeside(q, s.runs[q], s.threads[t], s.runs[q].agent in s.serving, Slack(s, s.runs[q]), Queued(r));
        }
      }
    }
  }

  lemma QueuedShape(runs: map<RunId, Run>, h: ThreadHandler, t: ThreadId, r: RunId, run: Run)
    requires ThreadShape(runs, h, t) && r !in runs && run.thread == t
    requires forall m :: m in h.inbox ==> m.Poke? || m.run != r
    ensures ThreadShape(runs[r := run], Put(h, [Queued(r)]), t)
  {
    var h' := Put(h, [Queued(r)]);
    var runs' := runs[r := run];
    forall i | 0 <= i < |h'.inbox| ensures MessageOK(runs', h', t, h'.inbox[i]) {
      if i < |h.inbox| { assert MessageOK(runs, h, t, h.inbox[i]); }
    }
    forall i, j | 0 <= i < j < |h'.inbox| && h'.inbox[j].Queued? ensures !About(h'.inbox[i], h'.inbox[j].run) {
      assert h'.inbox[i] == h.inbox[i];
      if j < |h.inbox| { assert h'.inbox[j] == h.inbox[j]; } else { assert h.inbox[i] in h.inbox; }
    }
  }

  lemma OtherShape(runs: map<RunId, Run>, h: ThreadHandler, u: ThreadId, r: RunId, run: Run)
    requires ThreadShape(runs, h, u) && r !in runs
    ensures ThreadShape(runs[r := run], h, u)
  {
    forall i | 0 <= i < |h.inbox| ensures MessageOK(runs[r := run], h, u, h.inbox[i]) {
      assert MessageOK(runs, h, u, h.inbox[i]);
    }
  }

  lemma EnqueuedThreads(s: State, r: RunId, a: AgentRef, t: ThreadId, addressed: Option<RunId>, valid: bool)
    requires ThreadsOK(s.runs, s.threads) && Fresh(s, r) && s.running
    ensures var s' := Enqueue(s, r, a, t, addressed, valid); ThreadsOK(s'.runs, s'.threads)
  {
    var s' := Enqueue(s, r, a, t, addressed, valid);
    var h := HandlerFor(s, a, t);
    assert ThreadShape(s.runs, h, t);
    forall u | u in s'.threads ensures ThreadShape(s'.runs, s'.threads[u], u) {
      if u == t { QueuedShape(s.runs, h, t, r, s'.runs[r]); }
      else { OtherShape(s.runs, s.threads[u], u, r, s'.runs[r]); }
    }
  }

  lemma EnqueuedRested(s: State, r: RunId, a: AgentRef, t: ThreadId, addressed: Option<RunId>, valid: bool)
    requires ThreadsOK(s.runs, s.threads) && Rested(s, Nobody) && r !in s.runs && s.running
    ensures Rested(Enqueue(s, r, a, t, addressed, valid), Nobody)
  {
    var s' := Enqueue(s, r, a, t, addressed, valid);
    forall u | u in s'.threads ensures Alive(s'.threads[u]) && Awake(s', u) {
      if u != t {
        assert Awake(s, u) && ThreadShape(s.runs, s.threads[u], u);
      }
    }
  }

  lemma EnqueuedBooks(s: State, r: RunId, a: AgentRef, t: ThreadId, addressed: Option<RunId>, valid: bool)
    requires Books(s) && r !in s.runs && r !in s.done && Capacity(s.runs, s.providers) && s.running
    requires OffersOK(s.offers, s.arrivals) && Ledger(s.ledger, s.providers, s.arrivals)
    ensures var s' := Enqueue(s, r, a, t, addressed, valid);
            && Books(s') && Capacity(s'.runs, s'.providers)
            && OffersOK(s'.offers, s'.arrivals) && Ledger(s'.ledger, s'.providers, s'.arrivals)
    ensures !Marked(s.ledger, r)
  {
    var s' := Enqueue(s, r, a, t, addressed, valid);
    assert r !in s.arrivals;
    forall k ensures ProviderOf(s'.providers, k).inFlight == |Holding(s'.runs, k)| {
      assert Holding(s'.runs, k) == Holding(s.runs, k);
    }
    forall q | q in s'.runs
      ensures s'.runs[q].arrival < |s'.arrivals| && s'.arrivals[s'.runs[q].arrival] == q
    {}
  }

  /** The newest run goes to the end of its thread's line. */
  lemma InLineArrives(runs: map<RunId, Run>, h: ThreadHandler, r: RunId, run: Run)
    requires InLine(runs, h) && r !in runs && forall q :: q in runs ==> runs[q].arrival < run.arrival
    requires r !in h.queue && forall m :: m in h.inbox ==> m.Poke? || m.run != r
    ensures InLine(runs[r := run], Put(h, [Queued(r)]))
    ensures InLine(runs[r := run], h)
  {
    var runs' := runs[r := run];
    assert forall i :: 0 <= i < |h.inbox| ==> h.inbox[i] in h.inbox;
    assert forall i :: 0 <= i < |h.queue| ==>
           h.queue[i] != r && (Ordinary(runs', h.queue[i]) <==> Ordinary(runs, h.queue[i]));
    assert forall q, z :: q != r && z != r ==> (Before(runs', q, z) <==> Before(runs, q, z));
    assert forall q :: q != r ==> Before(runs', q, r);
    var inbox' := h.inbox + [Queued(r)];
    assert forall i :: 0 <= i < |inbox'| ==> inbox'[i] == if i < |h.inbox| then h.inbox[i] else Queued(r);
  }

  lemma EnqueuedLines(s: State, r: RunId, a: AgentRef, t: ThreadId, addressed: Option<RunId>, valid: bool)
    requires Lines(s.runs, s.threads) && Books(s) && Fresh(s, r) && s.running && ThreadsOK(s.runs, s.threads)
    ensures var s' := Enqueue(s, r, a, t, addressed, valid); Lines(s'.runs, s'.threads)
  {
    hide InLine;
    var s' := Enqueue(s, r, a, t, addressed, valid);
    var h := HandlerFor(s, a, t);
    assert InLine(s.runs, h) by { if t !in s.threads { NobodyInLine(s.runs, h); } }
    forall u | u in s'.threads ensures InLine(s'.runs, s'.threads[u]) {
      var g := if u == t then h else s.threads[u];
      assert u in s.threads ==> ThreadShape(s.runs, g, u);
      InLineArrives(s.runs, g, r, s'.runs[r]);
    }
  }

  lemma NobodyInLine(runs: map<RunId, Run>, h: ThreadHandler)
    requires h.queue == [] && h.inbox == []
    ensures InLine(runs, h)
  {
  }

  lemma EnqueueKeeps(s: State, r: RunId, a: AgentRef, t: ThreadId, addressed: Option<RunId>, valid: bool)
    requires Inv(s, {}, Nobody) && Fresh(s, r)
    ensures Inv(Enqueue(s, r, a, t, addressed, valid), {}, Nobody)
  {
    hide Roster, Capacity, ThreadsOK, Rested, RunsOK, RunOK, DoneOK, Fresh, Ledger, Lines, OffersOK;
    if s.running {
      assert r !in s.runs && r !in s.done by { FreshMeans(s, r); }
      assert s.lastSweep <= s.now && 0 < s.timeout;
      EnqueuedBooks(s, r, a, t, addressed, valid);
      EnqueuedLines(s, r, a, t, addressed, valid);
      EnqueuedRun(s, r, a, t, addressed, valid);
      EnqueuedRuns(s, r, a, t, addressed, valid);
      EnqueuedThreads(s, r, a, t, addressed, valid);
      EnqueuedRested(s, r, a, t, addressed, valid);
    }
  }

  lemma FreshMeans(s: State, r: RunId)
    requires Fresh(s, r)
    ensures r !in s.runs && r !in s.done
  {
  }

  // ---- the roster ------------------------------------------------------------------------------

  /** Agents coming into service, and what their connections declare. */
  ghost predicate Enrolled(s: State, s': State) {
    var holds :=
      && s' == s.(serving := s'.serving, servingOrder := s'.servingOrder, providers := s'.providers,
                  unservedSince := s'.unservedSince)
      && (forall a :: a in s.serving ==> a in s'.serving)
      && (forall k :: ProviderOf(s'.providers, k).inFlight == ProviderOf(s.providers, k).inFlight
                      && ProviderOf(s'.providers, k).counters == ProviderOf(s.providers, k).counters)
      && (Roster(s.serving, s.servingOrder, s.providers) ==> Roster(s'.serving, s'.servingOrder, s'.providers))
      && (forall a :: a !in s'.serving ==>
            (a in s'.unservedSince <==> a in s.unservedSince)
            && (a in s.unservedSince ==> s'.unservedSince[a] == s.unservedSince[a]));
    holds
  }

  lemma RegisterOneEnrolls(s: State, a: AgentRef, c: Connection)
    ensures Enrolled(s, RegisterOne(s, a, c))
  {
    var s' := RegisterOne(s, a, c);
    if Roster(s.serving, s.servingOrder, s.providers) {
      assert Roster(s'.serving, s'.servingOrder, s'.providers);
    }
  }

  lemma {:induction false} RegisterEachEnrolls(s: State, mapping: seq<(AgentRef, Connection)>)
    ensures Enrolled(s, RegisterEach(s, mapping))
    decreases |mapping|
  {
    if mapping != [] {
      var s1 := RegisterOne(s, mapping[0].0, mapping[0].1);
      RegisterOneEnrolls(s, mapping[0].0, mapping[0].1);
      RegisterEachEnrolls(s1, mapping[1..]);
      EnrollsOn(s, s1, RegisterEach(s1, mapping[1..]));
    }
  }

  lemma EnrollsOn(a: State, b: State, c: State)
    requires Enrolled(a, b) && Enrolled(b, c)
    ensures Enrolled(a, c)
  {
  }

  lemma EnrolledRuns(s: State, s': State)
    requires RunsOK(s, {}) && Enrolled(s, s') && Books(s)
    ensures RunsOK(s'.(workToDo := true), {}) && Books(s'.(workToDo := true))
  {
    var s2 := s'.(workToDo := true);
    forall q | q in s2.runs && q !in {} ensures RunOK(s2, q) {
      assert RunOK(s, q);
      ServedFits(q, s.runs[q], s.threads[s.runs[q].thread], s.runs[q].agent in s.serving, Slack(s, s.runs[q]),
                 s.runs[q].agent in s2.serving, Slack(s2, s.runs[q]));
    }
  }

  lemma ServedFits(r: RunId, run: Run, h: ThreadHandler, served: bool, slack: int, served': bool, slack': int)
    requires Fits(r, run, h, served, slack) && (served ==> served') && (!served' ==> slack == slack')
    ensures Fits(r, run, h, served', slack')
  {
  }

  lemma EnrolledRested(s: State, s': State)
    requires Rested(s, Nobody) && Enrolled(s, s') && Capacity(s.runs, s.providers)
    ensures Rested(s'.(workToDo := true), Nobody) && Capacity(s'.runs, s'.providers)
  {
    forall k ensures ProviderOf(s'.providers, k).inFlight == |Holding(s'.runs, k)| {
      assert ProviderOf(s.providers, k).inFlight == |Holding(s.runs, k)|;
    }
  }

  lemma EnrolledKeeps(s: State, s': State)
    requires Inv(s, {}, Nobody) && Enrolled(s, s')
    ensures Inv(s'.(workToDo := true), {}, Nobody)
  {
    hide Books, Roster, Capacity, ThreadsOK, Rested, RunsOK, DoneOK, Ledger, Lines, OffersOK;
    EnrolledRuns(s, s');
    EnrolledRested(s, s');
    EnrolledLedger(s, s');
  }

  lemma EnrolledLedger(s: State, s': State)
    requires Enrolled(s, s') && Ledger(s.ledger, s.providers, s.arrivals)
    ensures Ledger(s'.ledger, s'.providers, s'.arrivals)
  {
    LedgerAfter(s.ledger, s.providers, s'.providers, s.arrivals);
  }

  lemma {:induction false} PokeEachIsNoise(s: State, mapping: seq<(AgentRef, Connection)>)
    ensures Noise(s, PokeEach(s, mapping))
    decreases |mapping|
  {
    if mapping == [] {
      NoNoise(s);
    } else {
      PokeAgentIsNoise(s, mapping[0].0);
      PokeEachIsNoise(PokeAgent(s, mapping[0].0), mapping[1..]);
      NoiseTransitive(s, PokeAgent(s, mapping[0].0), PokeEach(s, mapping));
    }
  }

  lemma RegisterKeeps(s: State, mapping: seq<(AgentRef, Connection)>)
    requires Inv(s, {}, Nobody)
    ensures Inv(Register(s, mapping), {}, Nobody)
  {
    hide Inv, Noise, Enrolled;
    var s1 := RegisterEach(s, mapping);
    RegisterEachEnrolls(s, mapping);
    EnrolledKeeps(s, s1);
    PokeEachIsNoise(s1.(workToDo := true), mapping);
    NoiseKeeps(s1.(workToDo := true), Register(s, mapping), {}, Nobody);
  }

  // ---- clocks ------------------------------------------------------------------------------------

  lemma {:induction false} ExpiredHolds(s: State, ids: seq<RunId>)
    ensures forall r :: r in ids && r in s.runs && Expires(s, s.runs[r]) ==> r in ExpiredOf(s, ids)
    ensures forall r :: r in ExpiredOf(s, ids) ==> r in ids && r in s.runs && Expires(s, s.runs[r])
  {
    if ids != [] { ExpiredHolds(s, ids[1..]); }
  }

  lemma SweptFits(r: RunId, run: Run, h: ThreadHandler, served: bool, slack: int, slack': int)
    requires Fits(r, run, h, served, slack)
    requires Idle(run) && !served ==> FailIn(h.inbox, r) || 0 < slack'
    ensures Fits(r, run, Put(h, [Poke]), served, slack')
  {
    PostedBeside(r, run, h, served, slack, Poke);
    OneMore(h.inbox, Poke, r);
  }

  /** After a sweep, every run it could have given up on has been. */
  lemma SweptRun(s: State, r: RunId)
    requires Books(s) && Roster(s.serving, s.servingOrder, s.providers) && r in s.runs && RunOK(s, r)
    ensures RunOK(Sweep(s), r)
  {
    hide Fits, Noise, FailsOn, ExpiredOf;
    var ids := ExpiredOf(s, s.arrivals);
    var s1 := PushFails(s, ids, NoProviderTookIt);
    var run := s.runs[r];
    PushFailsIsNoise(s, ids, NoProviderTookIt);
    NoiseKeepsRun(s, s1, r);
    ExpiredHolds(s, s.arrivals);
    if Expires(s, run) { PushFailsPosts(s, ids, NoProviderTookIt, r); }
    SweptFits(r, run, s1.threads[run.thread], run.agent in s.serving, Slack(s1, run), Slack(Sweep(s), run));
  }

  lemma SweptThreads(s: State)
    requires ThreadsOK(s.runs, s.threads) && Rested(s, Nobody) && Books(s) && Lines(s.runs, s.threads)
    ensures ThreadsOK(Sweep(s).runs, Sweep(s).threads) && Rested(Sweep(s), Nobody) && Books(Sweep(s))
    ensures Lines(Sweep(s).runs, Sweep(s).threads)
  {
    var ids := ExpiredOf(s, s.arrivals);
    var s1 := PushFails(s, ids, NoProviderTookIt);
    var s2 := s1.(workToDo := false, lastSweep := s.now);
    assert ThreadsOK(s2.runs, s2.threads) && Lines(s2.runs, s2.threads) && Books(s2) by {
      PushFailsIsNoise(s, ids, NoProviderTookIt);
      NoiseKeepsThreads(s, s1, Nobody);
      NoiseKeepsPlaces(s, s1, {}, Nobody);
    }
    PokedThreads(s2);
    PokedAreAwake(s2);
  }

  lemma PokedThreads(s: State)
    requires ThreadsOK(s.runs, s.threads) && Lines(s.runs, s.threads)
    ensures var s' := PokeAll(s); ThreadsOK(s'.runs, s'.threads) && Lines(s'.runs, s'.threads)
  {
    var s' := PokeAll(s);
    PokeAllIsNoise(s);
    forall t | t in s'.threads ensures ThreadShape(s'.runs, s'.threads[t], t) { NoiseKeepsThread(s, s', t); }
    NoiseKeepsPlaces(s, s', {}, Nobody);
  }

  /** Everyone who has been poked has something to read. */
  lemma PokedAreAwake(s: State)
    requires Books(s)
    ensures Rested(PokeAll(s), Nobody) && Books(PokeAll(s))
  {
  }

  lemma SweepKeeps(s: State)
    requires Inv(s, {}, Nobody)
    ensures Inv(Sweep(s), {}, Nobody)
  {
    hide Books, Roster, Capacity, ThreadsOK, Rested, DoneOK, RunOK, Ledger, Lines, OffersOK;
    SweptThreads(s);
    forall r | r in Sweep(s).runs && r !in {} ensures RunOK(Sweep(s), r) { SweptRun(s, r); }
    assert Capacity(Sweep(s).runs, Sweep(s).providers);
  }

  lemma TimeKeeps(s: State, d: nat)
    requires Inv(s, {}, Nobody) && (s.running ==> s.now + d <= s.lastSweep + s.timeout)
    ensures Inv(s.(now := s.now + d), {}, Nobody)
  {
    hide Roster, Capacity, ThreadsOK, DoneOK, Fits, Ledger, Lines, OffersOK;
    var s' := s.(now := s.now + d);
    forall r | r in s'.runs && r !in {} ensures RunOK(s', r) { assert RunOK(s, r); }
    forall t | t in s'.threads && !On(Nobody, t) ensures Alive(s'.threads[t]) && (Nobody.Freeing? || Awake(s', t)) {
      assert Awake(s, t);
    }
  }

  lemma StartKeeps(s: State)
    requires Inv(s, {}, Nobody)
    ensures Inv(Start(s), {}, Nobody)
  {
    hide Roster, Capacity, ThreadsOK, DoneOK, Fits, Ledger, Lines, OffersOK;
  }

  // ---- every step, every run of the broker ---------------------------------------------------------

  lemma StepKeeps(s: State, e: Step)
    requires Inv(s, {}, Nobody) && Enabled(s, e)
    ensures Inv(Apply(s, e), {}, Nobody)
  {
    hide Inv, Noise, OwnerStep, Register, Sweep, Fresh, Enqueue, ClockFires, PostStatement, AskCancel, PutAt,
        Unregister, Start;
    match e {
      case DoStart => StartKeeps(s);
      case DoEnqueue(r, a, t, addressed, valid) => EnqueueKeeps(s, r, a, t, addressed, valid);
      case DoAnswer(r, k, v) => StatementKeeps(s, r, Answered(r, k, v));
      case DoReport(r, ev, k) => StatementKeeps(s, r, Said(r, k, RelayEvent(ev)));
      case DoFinish(r, k) => StatementKeeps(s, r, Said(r, k, FinishStream));
      case DoCancel(r) => AskCancelKeeps(s, r);
      case DoFail(r, code) => if r in s.runs { PutKeeps(s, s.runs[r].thread, Trusted(r, Fail(code, ""))); }
      case DoUndelivered(r) => if r in s.runs { PutKeeps(s, s.runs[r].thread, Undelivered(r)); }
      case DoRegister(mapping) => RegisterKeeps(s, mapping);
      case DoUnregister(agents) =>
        UnregisterIsNoise(s, agents);
        NoiseKeeps(s, Unregister(s, agents), {}, Nobody);
      case DoOwner(t) => OwnerStepKeeps(s, t);
      case DoClock(r) => ClockKeeps(s, r);
      case DoHandOverFails(t, r, o) => PutKeeps(s, t, OfferLapsed(r, o));
      case DoSweep => SweepKeeps(s);
      case DoTime(d) => TimeKeeps(s, d);
    }
  }

  lemma InitHolds(now: int, timeout: int, tolerance: Option<int>)
    requires 0 < timeout
    ensures Inv(Init(now, timeout, tolerance), {}, Nobody)
  {
    var s := Init(now, timeout, tolerance);
    forall k ensures ProviderOf(s.providers, k).inFlight == |Holding(s.runs, k)| {
      assert Holding(s.runs, k) == {};
    }
  }

  lemma {:induction false} ExecKeeps(s: State, steps: seq<Step>)
    requires Inv(s, {}, Nobody) && Legal(s, steps)
    ensures Inv(Exec(s, steps), {}, Nobody)
    decreases |steps|
  {
    hide Inv, Enabled, Apply;
    if steps != [] {
      StepKeeps(s, steps[0]);
      ExecKeeps(Apply(s, steps[0]), steps[1..]);
    }
  }

  /** The invariant holds of every state any legal sequence of steps can reach. */
  lemma AlwaysHolds(now: int, timeout: int, tolerance: Option<int>, steps: seq<Step>)
    requires 0 < timeout && Legal(Init(now, timeout, tolerance), steps)
    ensures Inv(Exec(Init(now, timeout, tolerance), steps), {}, Nobody)
  {
    InitHolds(now, timeout, tolerance);
    ExecKeeps(Init(now, timeout, tolerance), steps);
  }
}
