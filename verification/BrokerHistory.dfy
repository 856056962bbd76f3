/** What only ever moves one way: a finished run is never touched again, a record
    only grows, and a provider is never pushed past the limit it declares. */
module BrokerHistory {
  import opened Vocabulary
  import opened BrokerSpec
  import opened BrokerInvariant
  import opened BrokerNoise
  import opened BrokerSteps

  /** If the count went up, it is within the limit. */
  predicate Within(p: Provider, q: Provider) {
    q.inFlight <= p.inFlight || q.declared.None? || q.inFlight <= q.declared.value
  }

  /** Where `r` stands in `s'`, its record is a continuation of `record`. */
  predicate Continues(record: seq<Entry>, s': State, r: RunId) {
    if r in s'.runs then record <= s'.runs[r].record else r in s'.done && record <= s'.done[r].record
  }

  ghost predicate Forward(s: State, s': State) {
    var holds :=
      && s'.runs.Keys !! s'.done.Keys
      && (forall r :: r in s.done ==> r in s'.done && s'.done[r] == s.done[r])
      && (forall r :: r in s.runs ==> Continues(s.runs[r].record, s', r))
      && s.ledger <= s'.ledger && s.offers <= s'.offers && s'.arrivals == s.arrivals
      && (forall k :: Within(ProviderOf(s.providers, k), ProviderOf(s'.providers, k))
                      && ProviderOf(s'.providers, k).declared == ProviderOf(s.providers, k).declared);
    holds
  }

  /** The mark that brings a provider to the tolerance leaves it serving nobody. */
  predicate Withdrawn(s: State, s': State, k: Key, c: Counter, a: AgentRef) {
    var before := CountOf(ProviderOf(s.providers, k).counters, c);
    var after := CountOf(ProviderOf(s'.providers, k).counters, c);
    after > before && s.tolerance.Some? && after >= s.tolerance.value && a in s'.serving ==> s'.serving[a] != k
  }

  /** Nobody is put in service, and the tolerance is applied. */
  ghost predicate Behaved(s: State, s': State) {
    var holds :=
      && (forall k :: ProviderOf(s'.providers, k).connection == ProviderOf(s.providers, k).connection)
      && (Roster(s.serving, s.servingOrder, s.providers) ==>
            && Roster(s'.serving, s'.servingOrder, s'.providers) && s'.tolerance == s.tolerance
            && (forall a :: a in s'.serving ==> a in s.serving && s'.serving[a] == s.serving[a])
            && (forall k, c ::
                  CountOf(ProviderOf(s'.providers, k).counters, c) >= CountOf(ProviderOf(s.providers, k).counters, c))
            && (forall k, c, a :: Withdrawn(s, s', k, c, a)));
    holds
  }

  lemma BehavedOn(a: State, b: State, c: State)
    requires Behaved(a, b) && Behaved(b, c)
    ensures Behaved(a, c)
  {
    forall k, n, g | Roster(a.serving, a.servingOrder, a.providers) ensures Withdrawn(a, c, k, n, g) {
      assert Withdrawn(a, b, k, n, g) && Withdrawn(b, c, k, n, g);
    }
  }

  /** The roster and the counters as they were. */
  lemma SameRollBehaves(s: State, s': State)
    requires s'.serving == s.serving && s'.servingOrder == s.servingOrder && s'.tolerance == s.tolerance
    requires forall k :: ProviderOf(s'.providers, k).counters == ProviderOf(s.providers, k).counters
    requires forall k :: ProviderOf(s'.providers, k).connection == ProviderOf(s.providers, k).connection
    requires s.providers.Keys <= s'.providers.Keys
    ensures Behaved(s, s')
  {
    forall k | k in s'.providers ensures s'.providers[k].connection == ProviderOf(s.providers, k).connection {
      assert ProviderOf(s'.providers, k).connection == ProviderOf(s.providers, k).connection;
    }
    forall a | Roster(s.serving, s.servingOrder, s.providers) && a in s'.serving
      ensures s'.serving[a] in s'.providers && s'.providers[s'.serving[a]].connection.Some?
    {
      assert ProviderOf(s'.providers, s.serving[a]).connection == ProviderOf(s.providers, s.serving[a]).connection;
    }
  }

  lemma NoiseBehaves(s: State, s': State)
    requires Noise(s, s')
    ensures Behaved(s, s')
  {
  }

  lemma {:induction false} ServedByIsAll(serving: map<AgentRef, Key>, order: seq<AgentRef>, k: Key, a: AgentRef)
    requires a in order && a in serving && serving[a] == k
    ensures a in AgentsServedBy(serving, order, k)
  {
    if a != order[0] { ServedByIsAll(serving, order[1..], k, a); }
  }

  lemma {:induction false} UnregisteredAreOut(s: State, agents: seq<AgentRef>, a: AgentRef)
    requires a in agents
    ensures a !in Unregister(s, agents).serving
    decreases |agents|
  {
    if a == agents[0] {
      UnregisterIsNoise(UnregisterOne(s, a), agents[1..]);
    } else {
      UnregisteredAreOut(UnregisterOne(s, agents[0]), agents[1..], a);
    }
  }

  lemma BumpedCounts(s: State, r: RunId, k: Key, c: Counter)
    ensures var s1 := Bumped(s, r, k, c);
            && (Roster(s.serving, s.servingOrder, s.providers) ==> Roster(s1.serving, s1.servingOrder, s1.providers))
            && (forall k2 :: ProviderOf(s1.providers, k2).connection == ProviderOf(s.providers, k2).connection)
            && forall k2, c2 :: CountOf(ProviderOf(s1.providers, k2).counters, c2)
                                == CountOf(ProviderOf(s.providers, k2).counters, c2)
                                   + if k2 == k && c2 == c then 1 else 0
  {
  }

  /** Either the tolerance is not reached, or nobody is served by the key any more. */
  lemma NoteWithdraws(s: State, r: RunId, k: Key, c: Counter, a: AgentRef)
    requires Roster(s.serving, s.servingOrder, s.providers) && s.tolerance.Some?
    requires CountOf(Bumped(s, r, k, c).providers[k].counters, c) >= s.tolerance.value
    requires a in NoteAbnormal(s, r, k, c).serving
    ensures NoteAbnormal(s, r, k, c).serving[a] != k
  {
    hide Unregister;
    var s1, s' := Bumped(s, r, k, c), NoteAbnormal(s, r, k, c);
    NoteIsBumpAndNoise(s, r, k, c);
    var agents := AgentsServedBy(s1.serving, s1.servingOrder, k);
    assert s' == Unregister(s1, agents);
    if s1.serving[a] == k {
      ServedByIsAll(s1.serving, s1.servingOrder, k, a);
      UnregisteredAreOut(s1, agents, a);
    }
  }

  lemma NoteBehaves(s: State, r: RunId, k: Key, c: Counter)
    ensures Behaved(s, NoteAbnormal(s, r, k, c))
  {
    hide Roster, NoteAbnormal;
    var s1, s' := Bumped(s, r, k, c), NoteAbnormal(s, r, k, c);
    NoteIsBumpAndNoise(s, r, k, c);
    BumpedCounts(s, r, k, c);
    forall k2, c2, a | Roster(s.serving, s.servingOrder, s.providers) ensures Withdrawn(s, s', k2, c2, a) {
      if k2 == k && c2 == c && s.tolerance.Some? && CountOf(s1.providers[k].counters, c) >= s.tolerance.value
         && a in s'.serving
      {
        NoteWithdraws(s, r, k, c, a);
      }
    }
  }

  /** A counter of `k` was brought to the tolerance. */
  ghost predicate Reached(s: State, s': State, k: Key) {
    exists c :: CountOf(ProviderOf(s'.providers, k).counters, c) > CountOf(ProviderOf(s.providers, k).counters, c)
                && s.tolerance.Some? && CountOf(ProviderOf(s'.providers, k).counters, c) >= s.tolerance.value
  }

  /** Nobody is taken out of service for anything less. */
  ghost predicate KeepsServing(s: State, s': State) {
    var holds :=
      Roster(s.serving, s.servingOrder, s.providers) ==>
        forall a :: a in s.serving && a !in s'.serving ==> Reached(s, s', s.serving[a]);
    holds
  }

  lemma ReachedOn(a: State, b: State, c: State, k: Key)
    requires Reached(a, b, k) || Reached(b, c, k)
    requires a.tolerance == b.tolerance
    requires forall n :: CountOf(ProviderOf(b.providers, k).counters,
                                 n) >= CountOf(ProviderOf(a.providers, k).counters, n)
    requires forall n :: CountOf(ProviderOf(c.providers, k).counters,
                                 n) >= CountOf(ProviderOf(b.providers, k).counters, n)
    ensures Reached(a, c, k)
  {
    if Reached(a, b, k) {
      var n :| CountOf(ProviderOf(b.providers, k).counters, n) > CountOf(ProviderOf(a.providers, k).counters, n)
               && a.tolerance.Some? && CountOf(ProviderOf(b.providers, k).counters, n) >= a.tolerance.value;
      assert CountOf(ProviderOf(c.providers, k).counters, n) >= CountOf(ProviderOf(b.providers, k).counters, n);
    } else {
      var n :| CountOf(ProviderOf(c.providers, k).counters, n) > CountOf(ProviderOf(b.providers, k).counters, n)
               && b.tolerance.Some? && CountOf(ProviderOf(c.providers, k).counters, n) >= b.tolerance.value;
      assert CountOf(ProviderOf(b.providers, k).counters, n) >= CountOf(ProviderOf(a.providers, k).counters, n);
    }
  }

  lemma KeepsServingOn(a: State, b: State, c: State)
    requires Behaved(a, b) && Behaved(b, c) && KeepsServing(a, b) && KeepsServing(b, c)
    ensures KeepsServing(a, c)
  {
    hide Reached, Roster, Withdrawn;
    forall g | Roster(a.serving, a.servingOrder, a.providers) && g in a.serving && g !in c.serving
      ensures Reached(a, c, a.serving[g])
    {
      ReachedOn(a, b, c, a.serving[g]);
    }
  }

  lemma SameServingKeeps(s: State, s': State)
    requires s'.serving == s.serving
    ensures KeepsServing(s, s')
  {
    hide Roster, Reached;
  }

  lemma {:induction false} ServedByOnly(serving: map<AgentRef, Key>, order: seq<AgentRef>, k: Key, a: AgentRef)
    requires a in AgentsServedBy(serving, order, k)
    ensures a in serving && serving[a] == k
  {
    if a in AgentsServedBy(serving, order[1..], k) { ServedByOnly(serving, order[1..], k, a); }
  }

  lemma {:induction false} UnregisteredOnly(s: State, agents: seq<AgentRef>, a: AgentRef)
    requires a in s.serving && a !in agents
    ensures a in Unregister(s, agents).serving
    decreases |agents|
  {
    hide PushFails, PokeAgent, ClaimedOf;
    if agents != [] {
      StillServing(s, agents[0], a);
      UnregisteredOnly(UnregisterOne(s, agents[0]), agents[1..], a);
    }
  }

  lemma StillServing(s: State, g: AgentRef, a: AgentRef)
    requires a in s.serving && a != g
    ensures a in UnregisterOne(s, g).serving
  {
    hide FailsOn, ClaimedOf, Without;
  }

  lemma NoteKeepsServing(s: State, r: RunId, k: Key, c: Counter)
    ensures KeepsServing(s, NoteAbnormal(s, r, k, c))
  {
    hide Unregister, Roster;
    var s1, s' := Bumped(s, r, k, c), NoteAbnormal(s, r, k, c);
    BumpedCounts(s, r, k, c);
    NoteIsBumpAndNoise(s, r, k, c);
    forall a | a in s.serving && a !in s'.serving ensures Reached(s, s', s.serving[a]) {
      var agents := AgentsServedBy(s1.serving, s1.servingOrder, k);
      assert s' == Unregister(s1, agents);
      if a !in agents { UnregisteredOnly(s1, agents, a); }
      ServedByOnly(s1.serving, s1.servingOrder, k, a);
      assert CountOf(ProviderOf(s'.providers, k).counters, c) == CountOf(ProviderOf(s1.providers, k).counters, c);
    }
  }

  /** An offer is as it was, or given back, or went to the connection serving the agent. */
  predicate DirectedRun(s: State, run: Run, run': Run) {
    && run'.agent == run.agent && run'.offerId >= run.offerId
    && (run'.offeredConn.None?
        || (if run'.offerId == run.offerId then run'.offeredConn == run.offeredConn
            else run'.offeredConn == Serving(s, run.agent)))
  }

  ghost predicate Directed(s: State, s': State) {
    var holds :=
      Roster(s.serving, s.servingOrder, s.providers) ==>
        forall r :: r in s'.runs ==> r in s.runs && DirectedRun(s, s.runs[r], s'.runs[r]);
    holds
  }

  lemma ServedAsBefore(s: State, s': State, a: AgentRef)
    requires Behaved(s, s') && Roster(s.serving, s.servingOrder, s.providers)
    ensures Serving(s', a).None? || Serving(s', a) == Serving(s, a)
  {
    hide Roster, Withdrawn;
    if a in s'.serving {
      assert ProviderOf(s'.providers, s.serving[a]).connection == ProviderOf(s.providers, s.serving[a]).connection;
    }
  }

  lemma DirectedOn(a: State, b: State, c: State)
    requires Behaved(a, b) && Directed(a, b) && Directed(b, c)
    ensures Directed(a, c)
  {
    hide Withdrawn;
    assert Roster(a.serving, a.servingOrder, a.providers) ==> Roster(b.serving, b.servingOrder, b.providers);
    hide Roster, Behaved, Serving;
    forall r | Roster(a.serving, a.servingOrder, a.providers) && r in c.runs
      ensures r in a.runs && DirectedRun(a, a.runs[r], c.runs[r])
    {
      ServedAsBefore(a, b, a.runs[r].agent);
    }
  }

  /** Nobody's offer changed hands. */
  lemma SameOffersDirected(s: State, s': State)
    requires forall r :: r in s'.runs ==>
               r in s.runs && s'.runs[r].agent == s.runs[r].agent && s'.runs[r].offerId == s.runs[r].offerId
               && (s'.runs[r].offeredConn == s.runs[r].offeredConn || s'.runs[r].offeredConn.None?)
    ensures Directed(s, s')
  {
    hide Roster, Serving;
  }

  /** One owner's work, however far it gets, goes forward. */
  ghost predicate Moves(s: State, s': State) {
    (s.runs.Keys !! s.done.Keys ==> Forward(s, s')) && Behaved(s, s') && KeepsServing(s, s') && Directed(s, s')
  }

  lemma ForwardOn(a: State, b: State, c: State)
    requires Forward(a, b) && Forward(b, c)
    ensures Forward(a, c)
  {
    forall r | r in a.runs ensures Continues(a.runs[r].record, c, r) {
      assert Continues(a.runs[r].record, b, r);
      if r in b.runs { assert Continues(b.runs[r].record, c, r); }
    }
    forall k ensures Within(ProviderOf(a.providers, k), ProviderOf(c.providers, k)) {
      assert Within(ProviderOf(a.providers, k), ProviderOf(b.providers, k));
      assert Within(ProviderOf(b.providers, k), ProviderOf(c.providers, k));
    }
  }

  lemma MovesOn(a: State, b: State, c: State)
    requires Moves(a, b) && Moves(b, c)
    ensures Moves(a, c)
  {
    hide Behaved, KeepsServing, Directed;
    if a.runs.Keys !! a.done.Keys { ForwardOn(a, b, c); }
    BehavedOn(a, b, c);
    KeepsServingOn(a, b, c);
    DirectedOn(a, b, c);
  }

  lemma StaysPut(s: State)
    ensures Moves(s, s)
  {
    SameRollBehaves(s, s);
    SameServingKeeps(s, s);
    SameOffersDirected(s, s);
    hide Behaved, KeepsServing, Directed;
  }

  lemma NoiseForward(s: State, s': State)
    requires Noise(s, s')
    ensures (s.runs.Keys !! s.done.Keys ==> Forward(s, s')) && Behaved(s, s')
  {
    NoiseBehaves(s, s');
    hide Behaved;
  }

  lemma NoiseMoves(s: State, s': State)
    requires Noise(s, s') && s'.serving == s.serving
    ensures Moves(s, s')
  {
    NoiseForward(s, s');
    SameServingKeeps(s, s');
    SameOffersDirected(s, s');
    hide Behaved, KeepsServing, Directed, Forward;
  }

  lemma ThreadsMove(s: State, s': State)
    requires s' == s.(threads := s'.threads, workToDo := s'.workToDo)
    ensures Moves(s, s')
  {
    SameRollBehaves(s, s');
    SameServingKeeps(s, s');
    SameOffersDirected(s, s');
    hide Behaved, KeepsServing, Directed;
  }

  lemma SetMoves(s: State, r: RunId, run: Run)
    requires r in s.runs && s.runs[r].record <= run.record && run.agent == s.runs[r].agent
    requires run.offerId == s.runs[r].offerId && run.offeredConn == s.runs[r].offeredConn
    ensures Moves(s, SetRun(s, r, run))
  {
    hide Behaved, KeepsServing, Directed;
    var s' := SetRun(s, r, run);
    SameRollBehaves(s, s');
    SameServingKeeps(s, s');
    SameOffersDirected(s, s');
    assert s'.runs.Keys == s.runs.Keys;
    forall q | q in s.runs ensures Continues(s.runs[q].record, s', q) {}
  }

  lemma LogMoves(s: State, r: RunId, c: Command)
    ensures Moves(s, Log(s, r, c))
  {
    if r in s.runs { SetMoves(s, r, Logged(s.runs[r], c)); }
  }

  lemma ReleaseMoves(s: State, r: RunId)
    requires r in s.runs
    ensures Moves(s, Release(s, r))
  {
    hide Behaved, KeepsServing, Directed;
    var s' := Release(s, r);
    SameRollBehaves(s, s');
    SameServingKeeps(s, s');
    SameOffersDirected(s, s');
    assert s'.runs.Keys == s.runs.Keys;
    forall q | q in s.runs ensures Continues(s.runs[q].record, s', q) {}
  }

  lemma VacatedMoves(s: State, t: ThreadId, r: RunId)
    requires t in s.threads && r in s.runs
    ensures Moves(s, Vacated(s, t, r))
  {
    hide Behaved, KeepsServing, Directed;
    var s' := Vacated(s, t, r);
    SameRollBehaves(s, s');
    SameServingKeeps(s, s');
    SameOffersDirected(s, s');
    forall q | q in s.runs ensures Continues(s.runs[q].record, s', q) {
      if q == r { assert s.runs[q].record <= s'.done[r].record; }
    }
  }

  lemma SettleMoves(s: State, t: ThreadId, r: RunId)
    requires t in s.threads && r in s.runs
    ensures Moves(s, Settle(s, t, r))
  {
    hide Moves, Vacated;
    SettleIs(s, t, r);
    VacatedMoves(s, t, r);
    PokeAllIsNoise(Vacated(s, t, r));
    NoiseMoves(Vacated(s, t, r), Settle(s, t, r));
    MovesOn(s, Vacated(s, t, r), Settle(s, t, r));
  }

  lemma LogAndSettleMoves(s: State, t: ThreadId, r: RunId, c: Command)
    requires t in s.threads && r in s.runs
    ensures Moves(s, Settle(Log(s, r, c), t, r))
  {
    hide Moves, Settle;
    LogMoves(s, r, c);
    SettleMoves(Log(s, r, c), t, r);
    MovesOn(s, Log(s, r, c), Settle(Log(s, r, c), t, r));
  }

  lemma OfferedDirected(s: State, r: RunId, c: Connection, interjection: bool)
    requires r in s.runs && Serving(s, s.runs[r].agent) == Some(c)
    ensures Directed(s, Offered(s, r, c, interjection))
  {
    hide Roster, Serving;
  }

  /** The one step that takes a place takes it where there is room. */
  lemma OfferedMoves(s: State, r: RunId, c: Connection, interjection: bool)
    requires r in s.runs && HasRoom(ProviderOf(s.providers, c.key)) && Serving(s, s.runs[r].agent) == Some(c)
    ensures Moves(s, Offered(s, r, c, interjection))
  {
    hide Behaved, KeepsServing, Directed;
    var s' := Offered(s, r, c, interjection);
    SameRollBehaves(s, s');
    SameServingKeeps(s, s');
    OfferedDirected(s, r, c, interjection);
    assert s'.runs.Keys == s.runs.Keys;
    forall q | q in s.runs ensures Continues(s.runs[q].record, s', q) {}
  }

  lemma OfferMoves(s: State, t: ThreadId, r: RunId, interjection: bool)
    requires t in s.threads && r in s.runs
    ensures Moves(s, OfferTo(s, t, r, interjection))
  {
    hide Moves, Settle, Offered;
    var s' := OfferTo(s, t, r, interjection);
    if !CanOffer(s, s.runs[r].agent) {
      ThreadsMove(s, s');
    } else if !s.runs[r].validInput {
      LogAndSettleMoves(s, t, r, Fail(InputDoesNotValidate, INVALID_INPUT));
    } else {
      OfferedMoves(s, r, Serving(s, s.runs[r].agent).value, interjection);
    }
  }

  lemma NoteMoves(s: State, r: RunId, k: Key, c: Counter)
    ensures Moves(s, NoteAbnormal(s, r, k, c))
  {
    hide Behaved, KeepsServing, Directed;
    NoteIsBumpAndNoise(s, r, k, c);
    NoteBehaves(s, r, k, c);
    NoteKeepsServing(s, r, k, c);
    SameOffersDirected(s, NoteAbnormal(s, r, k, c));
  }

  lemma NoteOnceMoves(s: State, r: RunId, c: Counter)
    requires r in s.runs
    ensures Moves(s, NoteOnce(s, r, c))
  {
    hide Moves;
    var run := s.runs[r];
    StaysPut(s);
    if run.claimedBy.Some? && !run.notedAbnormal {
      var s1 := SetRun(s, r, run.(notedAbnormal := true));
      SetMoves(s, r, run.(notedAbnormal := true));
      NoteMoves(s1, r, run.claimedBy.value, c);
      MovesOn(s, s1, NoteOnce(s, r, c));
    }
  }

  lemma {:induction false} JoinEachMoves(s: State, t: ThreadId, ids: seq<RunId>)
    ensures Moves(s, JoinEach(s, t, ids))
    decreases |ids|
  {
    hide Moves, OfferTo;
    StaysPut(s);
    if ids != [] {
      var r := ids[0];
      var s1 := JoinOne(s, t, r);
      if t in s.threads && r in s.runs {
        var s0 := WithQueue(s, t, RemoveFirst(s.threads[t].queue, r));
        ThreadsMove(s, s0);
        OfferMoves(s0, t, r, true);
        MovesOn(s, s0, s1);
      }
      JoinEachMoves(s1, t, ids[1..]);
      MovesOn(s, s1, JoinEach(s, t, ids));
    }
  }

  lemma UntakenMoves(s: State, t: ThreadId, r: RunId, c: Command)
    requires t in s.threads && r in s.runs
    ensures Moves(s, EndUntaken(Release(s, r), t, r, c))
  {
    hide Moves, Settle;
    ReleaseMoves(s, r);
    LogAndSettleMoves(Release(s, r), t, r, c);
    MovesOn(s, Release(s, r), EndUntaken(Release(s, r), t, r, c));
  }

  lemma AcceptedMoves(s: State, t: ThreadId, r: RunId, k: Key)
    requires t in s.threads && r in s.runs
    ensures Moves(s, OnAccepted(s, t, r, k))
  {
    hide Moves, JoinEach, Log;
    var s1 := SetRun(s, r, Claimed(s.runs[r], k));
    var s' := OnAccepted(s, t, r, k);
    SetMoves(s, r, Claimed(s.runs[r], k));
    if Serving(s1, s1.runs[r].agent) != s1.runs[r].offeredConn {
      ThreadsMove(s1, s');
      MovesOn(s, s1, s');
    } else {
      var q := s.threads[t].queue;
      var s2 := if s1.runs[r].isInterjection then s1 else ReleaseInterjections(s1, t, r);
      StaysPut(s1);
      JoinEachMoves(s1, t, Joining(s1.runs, if q == [] then [] else q[1..], r));
      MovesOn(s, s1, s2);
      LogMoves(s2, r, RequestCancel);
      MovesOn(s, s2, Log(s2, r, RequestCancel));
    }
  }

  lemma AnsweredMoves(s: State, t: ThreadId, r: RunId, k: Key, v: Verdict)
    requires t in s.threads
    ensures Moves(s, OnAnswered(s, t, r, k, v))
  {
    hide Moves, EndUntaken, NoteMisdeclared, OnAccepted, Release;
    StaysPut(s);
    var s' := OnAnswered(s, t, r, k, v);
    if Live(s, t, r) && s.runs[r].verdictOpen && s.runs[r].offeredTo == Some(k) {
      var s1 := CloseVerdict(s, r);
      SetMoves(s, r, s1.runs[r]);
      match v {
        case Refused(reason) => UntakenMoves(s1, t, r, Fail(ProviderRefused, reason));
        case Declined =>
          UntakenMoves(s1, t, r, RequestCancel);
          MisdeclaredMoves(s1, t, r, k);
        case Accepted => AcceptedMoves(s1, t, r, k);
      }
      MovesOn(s, s1, s');
    }
  }

  lemma MisdeclaredMoves(s: State, t: ThreadId, r: RunId, k: Key)
    requires t in s.threads && r in s.runs
    ensures Moves(s, EndUntaken(NoteMisdeclared(Release(s, r), r, k), t, r, Fail(ProviderDeclined, "")))
  {
    hide Moves, Settle;
    var s1 := Release(s, r);
    var s2 := NoteMisdeclared(s1, r, k);
    ReleaseMoves(s, r);
    StaysPut(s1);
    NoteMoves(s1, r, k, Misdeclared);
    MovesOn(s, s1, s2);
    LogAndSettleMoves(s2, t, r, Fail(ProviderDeclined, ""));
    MovesOn(s, s2, EndUntaken(s2, t, r, Fail(ProviderDeclined, "")));
  }

  lemma LapsedMoves(s: State, t: ThreadId, r: RunId, o: nat)
    requires t in s.threads
    ensures Moves(s, OnOfferLapsed(s, t, r, o))
  {
    hide Moves, EndUntaken, Release;
    StaysPut(s);
    var s' := OnOfferLapsed(s, t, r, o);
    if Live(s, t, r) && s.runs[r].verdictOpen && s.runs[r].offerId == o {
      var s1 := CloseVerdict(s, r);
      SetMoves(s, r, s1.runs[r]);
      StaysPut(s1);
      var s2 := if s.runs[r].offeredTo.Some? then NoteAbnormal(s1, r, s.runs[r].offeredTo.value, Unanswered) else s1;
      if s.runs[r].offeredTo.Some? { NoteMoves(s1, r, s.runs[r].offeredTo.value, Unanswered); }
      MovesOn(s, s1, s2);
      UntakenMoves(s2, t, r, if s.runs[r].cancelRequested then RequestCancel else Fail(ProviderDidNotAnswer, ""));
      MovesOn(s, s2, s');
    }
  }

  lemma RecordMoves(s: State, t: ThreadId, r: RunId, c: Command)
    requires t in s.threads && r in s.runs
    ensures Moves(s, RecordAndMaybeSettle(s, t, r, c))
  {
    hide Moves, Settle;
    var s1 := Log(s, r, c);
    LogMoves(s, r, c);
    if c.RelayEvent? && Malformed(c.event) {
      LogAndSettleMoves(s1, t, r, Fail(ProviderSentMalformedEvent, POISON));
      MovesOn(s, s1, RecordAndMaybeSettle(s, t, r, c));
    } else if c.FinishStream? {
      SettleMoves(s1, t, r);
      MovesOn(s, s1, Settle(s1, t, r));
    }
  }

  lemma CancelMoves(s: State, t: ThreadId, r: RunId)
    requires t in s.threads
    ensures Moves(s, OnCancelAsked(s, t, r))
  {
    hide Moves, Settle;
    StaysPut(s);
    if Live(s, t, r) {
      var s1 := SetRun(s, r, s.runs[r].(cancelRequested := true));
      SetMoves(s, r, s1.runs[r]);
      LogMoves(s1, r, RequestCancel);
      LogAndSettleMoves(s1, t, r, RequestCancel);
      MovesOn(s, s1, Log(s1, r, RequestCancel));
      MovesOn(s, s1, Settle(Log(s1, r, RequestCancel), t, r));
    }
  }

  lemma TrustedMoves(s: State, t: ThreadId, r: RunId, c: Command)
    requires t in s.threads
    ensures Moves(s, OnTrusted(s, t, r, c))
  {
    hide Moves, Settle, NoteOnce, RecordAndMaybeSettle, OnCancelAsked;
    StaysPut(s);
    if Live(s, t, r) {
      CancelMoves(s, t, r);
      RecordMoves(s, t, r, c);
      var s1 := NoteOnce(s, r, Abandoned);
      NoteOnceMoves(s, r, Abandoned);
      LogAndSettleMoves(s1, t, r, c);
      MovesOn(s, s1, Settle(Log(s1, r, c), t, r));
    }
  }

  lemma QueuedMoves(s: State, t: ThreadId, r: RunId)
    requires t in s.threads
    ensures Moves(s, OnQueued(s, t, r))
  {
    hide Moves, OfferTo;
    StaysPut(s);
    if r in s.runs {
      var h := s.threads[t];
      var s1 := s.(threads := s.threads[t := h.(live := h.live + {r})]);
      ThreadsMove(s, s1);
      OfferMoves(s1, t, r, true);
      MovesOn(s, s1, OfferTo(s1, t, r, true));
      ThreadsMove(s, s1.(threads := s1.threads[t := s1.threads[t].(queue := h.queue + [r])]));
    }
  }

  lemma MessageMoves(s: State, t: ThreadId, m: Message)
    requires t in s.threads
    ensures Moves(s, OnMessage(s, t, m))
  {
    hide Moves, OnQueued, OnAnswered, OnTrusted, OnCancelAsked, OnOfferLapsed, NoteOnce, RecordAndMaybeSettle;
    StaysPut(s);
    match m {
      case Queued(r) => QueuedMoves(s, t, r);
      case Answered(r, k, v) => AnsweredMoves(s, t, r, k, v);
      case Said(r, k, c) => if Live(s, t, r) { RecordMoves(s, t, r, c); }
      case Trusted(r, c) => TrustedMoves(s, t, r, c);
      case CancelAsked(r) => CancelMoves(s, t, r);
      case OfferLapsed(r, o) => LapsedMoves(s, t, r, o);
      case Undelivered(r) => if Live(s, t, r) { NoteOnceMoves(s, r, Undeliverable); }
      case Poke =>
    }
  }

  lemma AdvanceMoves(s: State, t: ThreadId)
    ensures Moves(s, Advance(s, t))
  {
    hide Moves, OfferTo;
    StaysPut(s);
    if t in s.threads {
      var q := DropSettled(s.runs, s.threads[t].queue);
      var s1 := WithQueue(s, t, q);
      DropSettledHead(s.runs, s.threads[t].queue);
      ThreadsMove(s, s1);
      if q != [] && Idle(s.runs[q[0]]) {
        OfferMoves(s1, t, q[0], false);
        MovesOn(s, s1, OfferTo(s1, t, q[0], false));
      }
    }
  }

  lemma TakeMoves(s: State, t: ThreadId)
    requires t in s.threads && s.threads[t].inbox != []
    ensures Moves(s, Take(s, t))
  {
    hide Moves;
    var m := s.threads[t].inbox[0];
    var s1 := s.(threads := s.threads[t := s.threads[t].(inbox := s.threads[t].inbox[1..])]);
    ThreadsMove(s, s1);
    if (m.Answered? || m.Said?) && Live(s, t, m.run) {
      SetMoves(s1, m.run, s.runs[m.run].(heard := s.runs[m.run].heard + [m]));
      MovesOn(s, s1, Take(s, t));
    }
  }

  lemma OwnerMoves(s: State, t: ThreadId)
    requires t in s.threads && s.threads[t].inbox != []
    ensures Moves(s, OwnerStep(s, t))
  {
    hide Moves, OnMessage, Advance;
    var s1 := Take(s, t);
    var s2 := OnMessage(s1, t, s.threads[t].inbox[0]);
    var s3 := Advance(s2, t);
    TakeMoves(s, t);
    MessageMoves(s1, t, s.threads[t].inbox[0]);
    AdvanceMoves(s2, t);
    ThreadsMove(s3, Retire(s3, t));
    MovesOn(s, s1, s2);
    MovesOn(s, s2, s3);
    MovesOn(s, s3, Retire(s3, t));
  }

  // ---- every step ---------------------------------------------------------------------

  /** What a single step of any kind leaves behind: finished runs as they were, every
      other run's record continued, and no count raised past the limit now declared. */
  ghost predicate Onward(s: State, s': State) {
    var holds :=
      && (forall r :: r in s.done ==> r in s'.done && s'.done[r] == s.done[r])
      && (forall r :: r in s.runs ==> Continues(s.runs[r].record, s', r))
      && (forall k :: Within(ProviderOf(s.providers, k), ProviderOf(s'.providers, k)))
      && (forall k :: ProviderOf(s.providers, k).connection.Some? ==> ProviderOf(s'.providers, k).connection.Some?)
      && (Roster(s.serving, s.servingOrder, s.providers) ==> forall k, c, a :: Withdrawn(s, s', k, c, a));
    holds
  }

  lemma MovedIsOnward(s: State, s': State)
    requires Moves(s, s') && s.runs.Keys !! s.done.Keys
    ensures Onward(s, s')
  {
    hide Forward, Behaved;
    ForwardIsOnward(s, s');
  }

  lemma ForwardIsOnward(s: State, s': State)
    requires Forward(s, s') && Behaved(s, s')
    ensures Onward(s, s')
  {
    if Roster(s.serving, s.servingOrder, s.providers) {
      forall k, c, a ensures Withdrawn(s, s', k, c, a) {}
    }
  }

  lemma {:induction false} RegisterEachOnward(s: State, mapping: seq<(AgentRef, Connection)>)
    ensures var s' := RegisterEach(s, mapping);
            && s'.runs == s.runs && s'.done == s.done
            && forall k :: ProviderOf(s'.providers, k).inFlight == ProviderOf(s.providers, k).inFlight
                           && ProviderOf(s'.providers, k).counters == ProviderOf(s.providers, k).counters
                           && (ProviderOf(s.providers, k).connection.Some? ==>
                               ProviderOf(s'.providers, k).connection.Some?)
    decreases |mapping|
  {
    if mapping != [] { RegisterEachOnward(RegisterOne(s, mapping[0].0, mapping[0].1), mapping[1..]); }
  }

  lemma {:induction false} PokeEachOnward(s: State, mapping: seq<(AgentRef, Connection)>)
    ensures PokeEach(s, mapping) == s.(threads := PokeEach(s, mapping).threads)
    decreases |mapping|
  {
    if mapping != [] { PokeEachOnward(PokeAgent(s, mapping[0].0), mapping[1..]); }
  }

  lemma SameBooksOnward(s: State, s': State)
    requires s'.done == s.done
    requires forall k :: ProviderOf(s'.providers, k).inFlight == ProviderOf(s.providers, k).inFlight
                         && ProviderOf(s'.providers, k).counters == ProviderOf(s.providers, k).counters
                         && (ProviderOf(s.providers, k).connection.Some? ==>
                             ProviderOf(s'.providers, k).connection.Some?)
    requires forall r :: r in s.runs ==> r in s'.runs && s'.runs[r].record == s.runs[r].record
    ensures Onward(s, s')
  {
  }

  /** A door posts, and at most sets a field of the run it is about. */
  lemma DoorOnward(s: State, r: RunId, run: Run, m: Message)
    requires r in s.runs && run.record == s.runs[r].record
    ensures Onward(s, Post(SetRun(s, r, run), r, m))
  {
    SameBooksOnward(s, Post(SetRun(s, r, run), r, m));
  }

  lemma ThreadsOnward(s: State, s': State)
    requires s'.runs == s.runs && s'.done == s.done && s'.providers == s.providers
    ensures Onward(s, s')
  {
  }

  lemma EnqueueOnward(s: State, r: RunId, a: AgentRef, t: ThreadId, addressed: Option<RunId>, valid: bool)
    requires r !in s.runs
    ensures Onward(s, Enqueue(s, r, a, t, addressed, valid))
  {
    SameBooksOnward(s, Enqueue(s, r, a, t, addressed, valid));
  }

  lemma RegisterOnward(s: State, mapping: seq<(AgentRef, Connection)>)
    ensures Onward(s, Register(s, mapping))
  {
    RegisterEachOnward(s, mapping);
    PokeEachOnward(RegisterEach(s, mapping).(workToDo := true), mapping);
    SameBooksOnward(s, Register(s, mapping));
  }

  lemma RosterOnward(s: State, agents: seq<AgentRef>)
    requires s.runs.Keys !! s.done.Keys
    ensures Onward(s, Unregister(s, agents))
  {
    UnregisterIsNoise(s, agents);
    NoiseForward(s, Unregister(s, agents));
    ForwardIsOnward(s, Unregister(s, agents));
  }

  lemma SweepOnward(s: State)
    ensures Onward(s, Sweep(s))
  {
    ThreadsOnward(s, Sweep(s));
  }

  lemma StepOnward(s: State, e: Step)
    requires s.runs.Keys !! s.done.Keys && Enabled(s, e)
    ensures Onward(s, Apply(s, e))
  {
    hide Moves, Onward, OwnerStep, Register, Unregister, Enqueue, Sweep, SetRun, Post, PutAt;
    ThreadsOnward(s, s);
    match e {
      case DoStart => ThreadsOnward(s, Start(s));
      case DoEnqueue(r, a, t, addressed, valid) => EnqueueOnward(s, r, a, t, addressed, valid);
      case DoAnswer(r, k, v) =>
        var m := Answered(r, k, v);
        if r in s.runs { DoorOnward(s, r, s.runs[r].(posted := s.runs[r].posted + [m]), m); }
      case DoReport(r, ev, k) =>
        var m := Said(r, k, RelayEvent(ev));
        if r in s.runs { DoorOnward(s, r, s.runs[r].(posted := s.runs[r].posted + [m]), m); }
      case DoFinish(r, k) =>
        var m := Said(r, k, FinishStream);
        if r in s.runs { DoorOnward(s, r, s.runs[r].(posted := s.runs[r].posted + [m]), m); }
      case DoCancel(r) => if r in s.runs { DoorOnward(s, r, s.runs[r].(cancelRequested := true), CancelAsked(r)); }
      case DoFail(r, code) => PostOnward(s, r, Trusted(r, Fail(code, "")));
      case DoUndelivered(r) => PostOnward(s, r, Undelivered(r));
      case DoRegister(mapping) => RegisterOnward(s, mapping);
      case DoUnregister(agents) => RosterOnward(s, agents);
      case DoOwner(t) => OwnerMoves(s, t); MovedIsOnward(s, OwnerStep(s, t));
      case DoClock(r) => DoorOnward(s, r, s.runs[r].(clockDue := false), OfferLapsed(r, s.runs[r].offerId));
      case DoHandOverFails(t, r, o) => PutOnward(s, t, OfferLapsed(r, o));
      case DoSweep => SweepOnward(s);
      case DoTime(d) => ThreadsOnward(s, s.(now := s.now + d));
    }
  }

  lemma PostOnward(s: State, r: RunId, m: Message)
    ensures Onward(s, Post(s, r, m))
  {
    ThreadsOnward(s, Post(s, r, m));
  }

  lemma PutOnward(s: State, t: ThreadId, m: Message)
    ensures Onward(s, PutAt(s, t, m))
  {
    ThreadsOnward(s, PutAt(s, t, m));
  }
}
