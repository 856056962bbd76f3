/** What the doors, the roster and the clocks do to a broker, each in full: what is
    posted, what is changed, and that nothing else is. */
module BrokerEffects {
  import opened Vocabulary
  import opened BrokerSpec
  import opened BrokerInvariant
  import opened BrokerOwner
  import opened BrokerTheorems

  // ---- the doors ------------------------------------------------------------------------

  predicate IsDoor(e: Step) {
    e.DoAnswer? || e.DoReport? || e.DoFinish? || e.DoCancel? || e.DoFail? || e.DoUndelivered?
  }

  /** What a door puts in the inbox of the run's owner. */
  function DoorMessage(e: Step): Message
    requires IsDoor(e)
  {
    match e
    case DoAnswer(r, k, v) => Answered(r, k, v)
    case DoReport(r, ev, k) => Said(r, k, RelayEvent(ev))
    case DoFinish(r, k) => Said(r, k, FinishStream)
    case DoCancel(r) => CancelAsked(r)
    case DoFail(r, code) => Trusted(r, Fail(code, ""))
    case DoUndelivered(r) => Undelivered(r)
  }

  /** A run somebody spoke about, or asked to cancel, at a door. */
  function SpokenOf(e: Step, run: Run): Run
    requires IsDoor(e)
  {
    if e.DoCancel? then run.(cancelRequested := true)
    else if e.DoFail? || e.DoUndelivered? then run
    else run.(posted := run.posted + [DoorMessage(e)])
  }

  /** One run replaced, one message at the end of one inbox, and nothing else. */
  ghost predicate PostedExactly(s: State, s': State, r: RunId, run: Run, t: ThreadId, m: Message) {
    && s' == s.(runs := s'.runs, threads := s'.threads)
    && s'.runs.Keys == s.runs.Keys && r in s.runs && s'.runs[r] == run
    && (forall q :: q in s.runs && q != r ==> s'.runs[q] == s.runs[q])
    && s'.threads.Keys == s.threads.Keys && t in s.threads
    && s'.threads[t] == s.threads[t].(inbox := s.threads[t].inbox + [m])
    && (forall u :: u in s.threads && u != t ==> s'.threads[u] == s.threads[u])
  }

  /** A door about a tracked run posts its one message behind everything its owner has yet
      to read; a cancel also marks the run at once. About any other run it does nothing. */
  lemma DoorsPostExactly(s: State, e: Step)
    requires Reachable(s) && IsDoor(e)
    ensures Enabled(s, e)
    ensures if e.run in s.runs
            then PostedExactly(s, Apply(s, e), e.run, SpokenOf(e, s.runs[e.run]), s.runs[e.run].thread, DoorMessage(e))
            else Apply(s, e) == s
  {
    DoorApplies(s, e);
    hide Apply, PostedExactly, Post, SetRun;
    if e.run in s.runs {
      TrackedHasOwner(s, e.run);
      hide Reachable;
      PostingIs(s, e.run, SpokenOf(e, s.runs[e.run]), DoorMessage(e));
    }
  }

  lemma DoorApplies(s: State, e: Step)
    requires IsDoor(e)
    ensures Enabled(s, e)
    ensures if e.run in s.runs
            then Apply(s, e) == Post(SetRun(s, e.run, SpokenOf(e, s.runs[e.run])), e.run, DoorMessage(e))
            else Apply(s, e) == s
  {
    hide PutAt;
    if e.run in s.runs { assert s.runs[e.run := s.runs[e.run]] == s.runs; }
  }

  lemma TrackedHasOwner(s: State, r: RunId)
    requires Reachable(s) && r in s.runs
    ensures s.runs[r].thread in s.threads
  {
    hide Inv;
    ReachableHolds(s);
    InvRun(s, {}, Nobody, r);
  }

  lemma PostingIs(s: State, r: RunId, run: Run, m: Message)
    requires r in s.runs && run.thread == s.runs[r].thread && run.thread in s.threads
    ensures PostedExactly(s, Post(SetRun(s, r, run), r, m), r, run, run.thread, m)
  {
  }

  // ---- intake and clocks --------------------------------------------------------------------

  /** A run as it comes in: waiting, with nothing said, offered or asked. */
  predicate JustQueued(run: Run) {
    && Idle(run) && run.offeredConn.None? && run.offerId == 0 && !run.clockDue && !run.isInterjection
    && !run.notedAbnormal && !run.cancelRequested && run.record == [] && run.posted == [] && run.heard == []
  }

  /** A run is refused exactly while the broker is not running; otherwise it is tracked as it
      was asked for, stamped with the time, and the last thing its thread's owner will read. */
  lemma EnqueueTracksExactly(s: State, r: RunId, a: AgentRef, t: ThreadId, addressed: Option<RunId>, valid: bool)
    requires Reachable(s) && Enabled(s, DoEnqueue(r, a, t, addressed, valid))
    ensures var s' := Apply(s, DoEnqueue(r, a, t, addressed, valid));
            if !s.running then s' == s
            else
              && s' == s.(runs := s'.runs, arrivals := s.arrivals + [r], threads := s'.threads)
              && s'.runs.Keys == s.runs.Keys + {r} && (forall q :: q in s.runs ==> s'.runs[q] == s.runs[q])
              && JustQueued(s'.runs[r]) && s'.runs[r].agent == a && s'.runs[r].thread == t
              && s'.runs[r].addressed == addressed && s'.runs[r].validInput == valid && s'.runs[r].queuedAt == s.now
              && s'.threads.Keys == s.threads.Keys + {t}
              && s'.threads[t] == (if t in s.threads then s.threads[t].(inbox := s.threads[t].inbox + [Queued(r)])
                                   else ThreadHandler(a, [Queued(r)], [], {}))
              && (forall u :: u in s.threads && u != t ==> s'.threads[u] == s.threads[u])
  {
  }

  /** An offer's clock posts the lapse of the offer it was started for, once. */
  lemma ClockPostsExactly(s: State, r: RunId)
    requires Reachable(s) && Enabled(s, DoClock(r))
    ensures var run := s.runs[r];
            PostedExactly(s, Apply(s, DoClock(r)), r, run.(clockDue := false), run.thread, OfferLapsed(r, run.offerId))
  {
    TrackedHasOwner(s, r);
    PostingIs(s, r, s.runs[r].(clockDue := false), OfferLapsed(r, s.runs[r].offerId));
  }

  // ---- the roster -----------------------------------------------------------------------------

  lemma {:induction false} RegisterEachLeaves(s: State, mapping: seq<(AgentRef, Connection)>, a: AgentRef)
    requires forall i :: 0 <= i < |mapping| ==> mapping[i].0 != a
    ensures var s' := RegisterEach(s, mapping);
            && (a in s'.serving <==> a in s.serving) && (a in s.serving ==> s'.serving[a] == s.serving[a])
            && (a in s'.unservedSince <==> a in s.unservedSince)
            && (a in s.unservedSince ==> s'.unservedSince[a] == s.unservedSince[a])
    decreases |mapping|
  {
    if mapping != [] { RegisterEachLeaves(RegisterOne(s, mapping[0].0, mapping[0].1), mapping[1..], a); }
  }

  lemma {:induction false} RegisterEachServes(s: State, mapping: seq<(AgentRef, Connection)>, i: nat)
    requires i < |mapping| && forall j :: i < j < |mapping| ==> mapping[j].0 != mapping[i].0
    ensures var s' := RegisterEach(s, mapping);
            && mapping[i].0 in s'.serving && s'.serving[mapping[i].0] == mapping[i].1.key
            && mapping[i].0 !in s'.unservedSince
    decreases |mapping|
  {
    var s1 := RegisterOne(s, mapping[0].0, mapping[0].1);
    if i == 0 {
      RegisterEachLeaves(s1, mapping[1..], mapping[0].0);
    } else {
      RegisterEachServes(s1, mapping[1..], i - 1);
    }
  }

  /** A provider as a registration may leave it: its count and its marks are what they were. */
  predicate SameConduct(p: Provider, q: Provider) {
    q.inFlight == p.inFlight && q.counters == p.counters
  }

  lemma {:induction false} RegisterEachCounts(s: State, mapping: seq<(AgentRef, Connection)>, k: Key)
    ensures var s' := RegisterEach(s, mapping);
            && SameConduct(ProviderOf(s.providers, k), ProviderOf(s'.providers, k))
            && ((forall i :: 0 <= i < |mapping| ==> mapping[i].1.key != k) ==>
                  ProviderOf(s'.providers, k) == ProviderOf(s.providers, k))
    decreases |mapping|
  {
    if mapping != [] { RegisterEachCounts(RegisterOne(s, mapping[0].0, mapping[0].1), mapping[1..], k); }
  }

  lemma {:induction false} RegisterEachDeclares(s: State, mapping: seq<(AgentRef, Connection)>, i: nat)
    requires i < |mapping| && forall j :: i < j < |mapping| ==> mapping[j].1.key != mapping[i].1.key
    ensures var p, c := ProviderOf(RegisterEach(s, mapping).providers, mapping[i].1.key), mapping[i].1;
            p.connection == Some(c) && p.declared == c.limit
    decreases |mapping|
  {
    var s1 := RegisterOne(s, mapping[0].0, mapping[0].1);
    if i == 0 {
      RegisterEachCounts(s1, mapping[1..], mapping[0].1.key);
    } else {
      RegisterEachDeclares(s1, mapping[1..], i - 1);
    }
  }

  lemma {:induction false} RegisterEachKeeps(s: State, mapping: seq<(AgentRef, Connection)>)
    ensures var s' := RegisterEach(s, mapping);
            s' == s.(serving := s'.serving, servingOrder := s'.servingOrder, providers := s'.providers,
                     unservedSince := s'.unservedSince)
    decreases |mapping|
  {
    if mapping != [] { RegisterEachKeeps(RegisterOne(s, mapping[0].0, mapping[0].1), mapping[1..]); }
  }

  /** How often a registration names an agent. */
  function TimesNamed(mapping: seq<(AgentRef, Connection)>, a: AgentRef): nat {
    if mapping == [] then 0 else (if mapping[0].0 == a then 1 else 0) + TimesNamed(mapping[1..], a)
  }

  function Pokes(n: nat): seq<Message> {
    seq(n, i => Poke)
  }

  lemma {:induction false} PokeEachPokes(s: State, mapping: seq<(AgentRef, Connection)>)
    ensures var s' := PokeEach(s, mapping);
            && s' == s.(threads := s'.threads) && s'.threads.Keys == s.threads.Keys
            && forall t :: t in s.threads ==>
                 s'.threads[t] == s.threads[t].(inbox := s.threads[t].inbox
                                                + Pokes(TimesNamed(mapping, s.threads[t].agent)))
    decreases |mapping|
  {
    if mapping == [] {
      assert forall t :: t in s.threads ==> s.threads[t].inbox + Pokes(0) == s.threads[t].inbox;
    } else {
      var a, s1 := mapping[0].0, PokeAgent(s, mapping[0].0);
      PokeEachPokes(s1, mapping[1..]);
      var s' := PokeEach(s, mapping);
      forall t | t in s.threads
        ensures s'.threads[t]
                == s.threads[t].(inbox := s.threads[t].inbox + Pokes(TimesNamed(mapping, s.threads[t].agent)))
      {
        PokedOnce(s.threads[t].inbox, s.threads[t].agent == a, TimesNamed(mapping[1..], s.threads[t].agent));
      }
    }
  }

  lemma PokedOnce(inbox: seq<Message>, now: bool, later: nat)
    ensures inbox + (if now then [Poke] else []) + Pokes(later) == inbox + Pokes((if now then 1 else 0) + later)
  {
  }

  /** The agent's last entry in a registration is what serves it, and is off the unserved
      clock; the key's last entry is its connection, and declares its limit. */
  lemma RegisteredIsServed(s: State, mapping: seq<(AgentRef, Connection)>, i: nat)
    requires i < |mapping|
    ensures var s', a, c := Apply(s, DoRegister(mapping)), mapping[i].0, mapping[i].1;
            && ((forall j :: i < j < |mapping| ==> mapping[j].0 != a) ==>
                  a in s'.serving && s'.serving[a] == c.key && a !in s'.unservedSince)
            && ((forall j :: i < j < |mapping| ==> mapping[j].1.key != c.key) ==>
                  ProviderOf(s'.providers, c.key).connection == Some(c)
                  && ProviderOf(s'.providers, c.key).declared == c.limit)
            && ((forall j :: i < j < |mapping| ==> mapping[j].0 != a && mapping[j].1.key != c.key) ==>
                  Serving(s', a) == Some(c))
  {
    hide RegisterEach, PokeEach;
    PokeEachPokes(RegisterEach(s, mapping).(workToDo := true), mapping);
    if forall j :: i < j < |mapping| ==> mapping[j].0 != mapping[i].0 { RegisterEachServes(s, mapping, i); }
    if forall j :: i < j < |mapping| ==> mapping[j].1.key != mapping[i].1.key { RegisterEachDeclares(s, mapping, i); }
  }

  /** What a registration leaves of the roster as it was. */
  ghost predicate RosterBeyond(s: State, s': State, mapping: seq<(AgentRef, Connection)>) {
    && (forall a :: (forall i :: 0 <= i < |mapping| ==> mapping[i].0 != a) ==>
          && (a in s'.serving <==> a in s.serving) && (a in s.serving ==> s'.serving[a] == s.serving[a])
          && (a in s'.unservedSince <==> a in s.unservedSince)
          && (a in s.unservedSince ==> s'.unservedSince[a] == s.unservedSince[a]))
    && (forall k :: SameConduct(ProviderOf(s.providers, k), ProviderOf(s'.providers, k)))
    && (forall k :: (forall i :: 0 <= i < |mapping| ==> mapping[i].1.key != k) ==>
          ProviderOf(s'.providers, k) == ProviderOf(s.providers, k))
  }

  lemma RegisterEachBeyond(s: State, mapping: seq<(AgentRef, Connection)>)
    ensures RosterBeyond(s, RegisterEach(s, mapping), mapping)
  {
    hide RegisterEach;
    forall k
      ensures SameConduct(ProviderOf(s.providers, k), ProviderOf(RegisterEach(s, mapping).providers, k))
      ensures (forall i :: 0 <= i < |mapping| ==> mapping[i].1.key != k) ==>
                ProviderOf(RegisterEach(s, mapping).providers, k) == ProviderOf(s.providers, k)
    {
      RegisterEachCounts(s, mapping, k);
    }
    forall a | forall i :: 0 <= i < |mapping| ==> mapping[i].0 != a
      ensures var s' := RegisterEach(s, mapping);
              && (a in s'.serving <==> a in s.serving) && (a in s.serving ==> s'.serving[a] == s.serving[a])
              && (a in s'.unservedSince <==> a in s.unservedSince)
              && (a in s.unservedSince ==> s'.unservedSince[a] == s.unservedSince[a])
    {
      RegisterEachLeaves(s, mapping, a);
    }
  }

  lemma SameRosterBeyond(s: State, s1: State, s': State, mapping: seq<(AgentRef, Connection)>)
    requires RosterBeyond(s, s1, mapping)
    requires s'.serving == s1.serving && s'.unservedSince == s1.unservedSince && s'.providers == s1.providers
    ensures RosterBeyond(s, s', mapping)
  {
  }

  /** And that is all it does: agents and keys it does not name are as they were, no count
      or mark changes, the sweep is woken, and each owner is told once for each naming of
      its agent. */
  lemma RegisterChangesNothingElse(s: State, mapping: seq<(AgentRef, Connection)>)
    ensures var s' := Apply(s, DoRegister(mapping));
            && s' == s.(serving := s'.serving, servingOrder := s'.servingOrder, providers := s'.providers,
                        unservedSince := s'.unservedSince, workToDo := true, threads := s'.threads)
            && RosterBeyond(s, s', mapping)
            && s'.threads.Keys == s.threads.Keys
            && forall t :: t in s.threads ==>
                 s'.threads[t] == s.threads[t].(inbox := s.threads[t].inbox
                                                + Pokes(TimesNamed(mapping, s.threads[t].agent)))
  {
    hide RegisterEach, PokeEach, Pokes, TimesNamed, RosterBeyond;
    var s1 := RegisterEach(s, mapping).(workToDo := true);
    RegisterEachKeeps(s, mapping);
    RegisterEachBeyond(s, mapping);
    PokeEachPokes(s1, mapping);
    SameRosterBeyond(s, RegisterEach(s, mapping), PokeEach(s1, mapping), mapping);
  }

  // ---- leaving ------------------------------------------------------------------------------------

  lemma {:induction false} ClaimedAre(runs: map<RunId, Run>, ids: seq<RunId>, a: AgentRef, r: RunId)
    ensures r in ClaimedOf(runs, ids, a) <==> r in ids && r in runs && runs[r].agent == a && runs[r].claimedBy.Some?
  {
    if ids != [] {
      ClaimedAre(runs, ids[1..], a, r);
      assert ids == [ids[0]] + ids[1..];
    }
  }

  lemma {:induction false} FailsAre(runs: map<RunId, Run>, ids: seq<RunId>, t: ThreadId, code: FailCode, m: Message)
    ensures m in FailsOn(runs, ids, t, code) <==>
              exists r :: r in ids && r in runs && runs[r].thread == t && m == Trusted(r, Fail(code, ""))
  {
    if ids != [] {
      FailsAre(runs, ids[1..], t, code, m);
      assert ids == [ids[0]] + ids[1..];
    }
  }

  /** An inbox grew by pokes and by the end, for `code`, of exactly the runs in `ended`. */
  ghost predicate GrewByEnds(inbox: seq<Message>, inbox': seq<Message>, ended: set<RunId>, code: FailCode) {
    && inbox <= inbox'
    && forall m :: m in inbox'[|inbox|..] && !m.Poke? <==> exists r :: r in ended && m == Trusted(r, Fail(code, ""))
  }

  /** The runs of thread `t` that somebody holds for one of `agents` that is served. */
  ghost function HeldFor(s: State, t: ThreadId, agents: seq<AgentRef>): set<RunId> {
    set r | r in s.runs && s.runs[r].thread == t && s.runs[r].claimedBy.Some?
            && s.runs[r].agent in agents && s.runs[r].agent in s.serving
  }

  lemma GrowthOn(a: seq<Message>, b: seq<Message>, c: seq<Message>, p: set<RunId>, q: set<RunId>, code: FailCode)
    requires GrewByEnds(a, b, p, code) && GrewByEnds(b, c, q, code)
    ensures GrewByEnds(a, c, p + q, code)
  {
    assert c[|a|..] == b[|a|..] + c[|b|..];
    forall m ensures m in c[|a|..] && !m.Poke? <==> exists r :: r in p + q && m == Trusted(r, Fail(code, "")) {
      if exists r :: r in p && m == Trusted(r, Fail(code, "")) {
        var r :| r in p && m == Trusted(r, Fail(code, ""));
        assert m in b[|a|..] && r in p + q;
      }
      if exists r :: r in q && m == Trusted(r, Fail(code, "")) {
        var r :| r in q && m == Trusted(r, Fail(code, ""));
        assert m in c[|b|..] && r in p + q;
      }
    }
  }

  lemma FailedGrowth(inbox: seq<Message>, fails: seq<Message>, pokes: seq<Message>, ended: set<RunId>, code: FailCode)
    requires forall m :: m in pokes ==> m.Poke?
    requires forall m :: m in fails <==> exists r :: r in ended && m == Trusted(r, Fail(code, ""))
    ensures GrewByEnds(inbox, inbox + fails + pokes, ended, code)
  {
    var inbox' := inbox + fails + pokes;
    assert inbox'[|inbox|..] == fails + pokes;
  }

  /** Agents off the roster, and on the unserved clock from now. */
  ghost predicate OffTheRoster(s: State, s': State, agents: seq<AgentRef>) {
    && s' == s.(serving := s'.serving, servingOrder := s'.servingOrder, unservedSince := s'.unservedSince,
                threads := s'.threads)
    && (forall a :: a in s'.serving <==> a in s.serving && a !in agents)
    && (forall a :: a in s'.serving ==> s'.serving[a] == s.serving[a])
    && (forall a :: a in s'.unservedSince <==> a in s.unservedSince || (a in s.serving && a in agents))
    && (forall a :: a in s'.unservedSince ==>
          s'.unservedSince[a] == if a in s.serving && a in agents then s.now else s.unservedSince[a])
  }

  /** The ends of the runs held for them, in their owners' inboxes. */
  ghost predicate EndsPosted(s: State, s': State, agents: seq<AgentRef>) {
    && s'.threads.Keys == s.threads.Keys
    && (forall t :: t in s.threads ==>
          && s'.threads[t] == s.threads[t].(inbox := s'.threads[t].inbox)
          && GrewByEnds(s.threads[t].inbox, s'.threads[t].inbox, HeldFor(s, t, agents), ProviderLeftHoldingIt))
  }

  ghost predicate LeftExactly(s: State, s': State, agents: seq<AgentRef>) {
    OffTheRoster(s, s', agents) && EndsPosted(s, s', agents)
  }

  lemma OneOff(s: State, a: AgentRef)
    ensures OffTheRoster(s, UnregisterOne(s, a), [a]) && UnregisterOne(s, a).threads.Keys == s.threads.Keys
  {
    hide FailsOn, ClaimedOf, Without;
  }

  lemma OneLeaves(s: State, a: AgentRef)
    requires forall r :: r in s.runs ==> r in s.arrivals
    ensures LeftExactly(s, UnregisterOne(s, a), [a])
  {
    OneOff(s, a);
    hide OffTheRoster, UnregisterOne, GrewByEnds, HeldFor;
    if a in s.serving {
      forall t | t in s.threads
        ensures var h, h' := s.threads[t], UnregisterOne(s, a).threads[t];
                h' == h.(inbox := h'.inbox) && GrewByEnds(h.inbox, h'.inbox, HeldFor(s, t, [a]), ProviderLeftHoldingIt)
      {
        OneLeavesThread(s, a, t);
      }
    } else {
      NotServed(s, a);
    }
  }

  lemma NotServed(s: State, a: AgentRef)
    requires a !in s.serving
    ensures UnregisterOne(s, a) == s && EndsPosted(s, s, [a])
  {
    NobodyHeld(s, [a]);
  }

  lemma NobodyHeld(s: State, agents: seq<AgentRef>)
    requires forall a :: a in agents ==> a !in s.serving
    ensures EndsPosted(s, s, agents)
  {
    forall t | t in s.threads
      ensures GrewByEnds(s.threads[t].inbox, s.threads[t].inbox, HeldFor(s, t, agents), ProviderLeftHoldingIt)
    {
      FailedGrowth(s.threads[t].inbox, [], [], HeldFor(s, t, agents), ProviderLeftHoldingIt);
      assert s.threads[t].inbox + [] + [] == s.threads[t].inbox;
    }
  }

  lemma HeldFails(s: State, a: AgentRef, t: ThreadId, m: Message)
    requires a in s.serving && forall r :: r in s.runs ==> r in s.arrivals
    ensures m in FailsOn(s.runs, ClaimedOf(s.runs, s.arrivals, a), t, ProviderLeftHoldingIt) <==>
              exists r :: r in HeldFor(s, t, [a]) && m == Trusted(r, Fail(ProviderLeftHoldingIt, ""))
  {
    hide FailsOn, ClaimedOf;
    var ids := ClaimedOf(s.runs, s.arrivals, a);
    FailsAre(s.runs, ids, t, ProviderLeftHoldingIt, m);
    forall r ensures r in ids && r in s.runs && s.runs[r].thread == t <==> r in HeldFor(s, t, [a]) {
      ClaimedAre(s.runs, s.arrivals, a, r);
    }
  }

  lemma OneLeavesThread(s: State, a: AgentRef, t: ThreadId)
    requires a in s.serving && t in s.threads && forall r :: r in s.runs ==> r in s.arrivals
    ensures var h, h' := s.threads[t], UnregisterOne(s, a).threads[t];
            h' == h.(inbox := h'.inbox) && GrewByEnds(h.inbox, h'.inbox, HeldFor(s, t, [a]), ProviderLeftHoldingIt)
  {
    hide FailsOn, ClaimedOf, Without, HeldFor, GrewByEnds;
    var fails := FailsOn(s.runs, ClaimedOf(s.runs, s.arrivals, a), t, ProviderLeftHoldingIt);
    forall m
      ensures m in fails <==> exists r :: r in HeldFor(s, t, [a]) && m == Trusted(r, Fail(ProviderLeftHoldingIt, ""))
    {
      HeldFails(s, a, t, m);
    }
    FailedGrowth(s.threads[t].inbox, fails, if s.threads[t].agent == a then [Poke] else [],
                 HeldFor(s, t, [a]), ProviderLeftHoldingIt);
  }

  lemma OffOn(s: State, s1: State, s': State, a: AgentRef, agents: seq<AgentRef>)
    requires OffTheRoster(s, s1, [a]) && OffTheRoster(s1, s', agents)
    ensures OffTheRoster(s, s', [a] + agents)
    ensures forall t :: HeldFor(s, t, [a] + agents) == HeldFor(s, t, [a]) + HeldFor(s1, t, agents)
  {
  }

  lemma LeftOn(s: State, s1: State, s': State, a: AgentRef, agents: seq<AgentRef>)
    requires LeftExactly(s, s1, [a]) && LeftExactly(s1, s', agents)
    ensures LeftExactly(s, s', [a] + agents)
  {
    OffOn(s, s1, s', a, agents);
    hide OffTheRoster, HeldFor, GrewByEnds;
    forall t | t in s.threads
      ensures GrewByEnds(s.threads[t].inbox, s'.threads[t].inbox, HeldFor(s, t, [a] + agents), ProviderLeftHoldingIt)
    {
      GrowthOn(s.threads[t].inbox, s1.threads[t].inbox, s'.threads[t].inbox,
               HeldFor(s, t, [a]), HeldFor(s1, t, agents), ProviderLeftHoldingIt);
    }
  }

  lemma {:induction false} AllLeave(s: State, agents: seq<AgentRef>)
    requires forall r :: r in s.runs ==> r in s.arrivals
    ensures LeftExactly(s, Unregister(s, agents), agents)
    decreases |agents|
  {
    hide UnregisterOne;
    if agents == [] {
      NobodyHeld(s, []);
    } else {
      var s1 := UnregisterOne(s, agents[0]);
      OneLeaves(s, agents[0]);
      SameBooks(s, s1, agents[0]);
      AllLeave(s1, agents[1..]);
      hide LeftExactly;
      LeftOn(s, s1, Unregister(s, agents), agents[0], agents[1..]);
      assert agents == [agents[0]] + agents[1..];
    }
  }

  lemma SameBooks(s: State, s': State, a: AgentRef)
    requires LeftExactly(s, s', [a])
    ensures s'.runs == s.runs && s'.arrivals == s.arrivals
  {
  }

  /** Agents taken out of service: off the roster and on the unserved clock from now, and
      the end of exactly the runs held for them posted, for the provider's leaving; nothing
      else changes but pokes. */
  lemma UnregisterLeavesExactly(s: State, agents: seq<AgentRef>)
    requires Reachable(s)
    ensures LeftExactly(s, Apply(s, DoUnregister(agents)), agents)
  {
    AllAreArrivals(s);
    hide LeftExactly, Unregister;
    AllLeave(s, agents);
  }

  lemma AllAreArrivals(s: State)
    requires Reachable(s)
    ensures forall r :: r in s.runs ==> r in s.arrivals
  {
    hide Inv;
    ReachableHolds(s);
    InvBooks(s, {}, Nobody);
  }

  // ---- the sweep ---------------------------------------------------------------------------------------

  /** Nobody offered it, holds it or serves it, and its reference time is a timeout ago. */
  predicate Overdue(s: State, run: Run) {
    && run.claimedBy.None? && run.offeredTo.None?
    && Serving(s, run.agent).None?
    && run.queuedAt + s.timeout <= s.now
    && (run.agent in s.unservedSince ==> s.unservedSince[run.agent] + s.timeout <= s.now)
  }

  ghost function OverdueOn(s: State, t: ThreadId): set<RunId> {
    set r | r in s.runs && s.runs[r].thread == t && Overdue(s, s.runs[r])
  }

  /** One pass of the sweep posts the end of exactly the overdue runs, for want of a
      provider, pokes everybody behind it, and starts its wait anew. */
  lemma SweepPostsExactly(s: State)
    requires Reachable(s) && Enabled(s, DoSweep)
    ensures var s' := Apply(s, DoSweep);
            && s' == s.(workToDo := false, lastSweep := s.now, threads := s'.threads)
            && s'.threads.Keys == s.threads.Keys
            && forall t :: t in s.threads ==>
                 && s'.threads[t] == s.threads[t].(inbox := s'.threads[t].inbox)
                 && GrewByEnds(s.threads[t].inbox, s'.threads[t].inbox, OverdueOn(s, t), NoProviderTookIt)
                 && Poke in s'.threads[t].inbox
  {
    AllAreArrivals(s);
    SweepFrame(s);
    hide Sweep, GrewByEnds, OverdueOn, Reachable;
    forall t | t in s.threads
      ensures var h, h' := s.threads[t], Sweep(s).threads[t];
              h' == h.(inbox := h'.inbox) && GrewByEnds(h.inbox, h'.inbox, OverdueOn(s, t), NoProviderTookIt)
              && Poke in h'.inbox
    {
      SweptThread(s, t);
    }
  }

  lemma SweepFrame(s: State)
    ensures var s' := Sweep(s);
            && s' == s.(workToDo := false, lastSweep := s.now, threads := s'.threads)
            && s'.threads.Keys == s.threads.Keys
  {
    hide FailsOn, ExpiredOf;
  }

  lemma OverdueFails(s: State, t: ThreadId, m: Message)
    requires forall r :: r in s.runs ==> r in s.arrivals
    ensures m in FailsOn(s.runs, ExpiredOf(s, s.arrivals), t, NoProviderTookIt) <==>
              exists r :: r in OverdueOn(s, t) && m == Trusted(r, Fail(NoProviderTookIt, ""))
  {
    hide FailsOn, ExpiredOf, Overdue, Expires;
    var ids := ExpiredOf(s, s.arrivals);
    FailsAre(s.runs, ids, t, NoProviderTookIt, m);
    forall r ensures r in ids && r in s.runs && s.runs[r].thread == t <==> r in OverdueOn(s, t) {
      ExpiredAre(s, s.arrivals, r);
      if r in s.runs { OverdueExpires(s, s.runs[r]); }
    }
  }

  lemma SweptThread(s: State, t: ThreadId)
    requires t in s.threads && forall r :: r in s.runs ==> r in s.arrivals
    ensures var h, h' := s.threads[t], Sweep(s).threads[t];
            h' == h.(inbox := h'.inbox) && GrewByEnds(h.inbox, h'.inbox, OverdueOn(s, t), NoProviderTookIt)
            && Poke in h'.inbox
  {
    hide FailsOn, ExpiredOf, OverdueOn, GrewByEnds;
    var fails := FailsOn(s.runs, ExpiredOf(s, s.arrivals), t, NoProviderTookIt);
    forall m ensures m in fails <==> exists r :: r in OverdueOn(s, t) && m == Trusted(r, Fail(NoProviderTookIt, "")) {
      OverdueFails(s, t, m);
    }
    FailedGrowth(s.threads[t].inbox, fails, [Poke], OverdueOn(s, t), NoProviderTookIt);
  }

  lemma OverdueExpires(s: State, run: Run)
    ensures Expires(s, run) <==> Overdue(s, run)
  {
    hide Serving;
  }

  lemma {:induction false} ExpiredAre(s: State, ids: seq<RunId>, r: RunId)
    ensures r in ExpiredOf(s, ids) <==> r in ids && r in s.runs && Expires(s, s.runs[r])
  {
    if ids != [] {
      ExpiredAre(s, ids[1..], r);
      assert ids == [ids[0]] + ids[1..];
    }
  }
}
