/** The run broker as it runs: one object whose fields every operation changes in
    place. Each method is proved to take the broker's state exactly where the function
    of `BrokerSpec` with the same meaning says. */
module Broker {
  import opened Vocabulary
  import opened BrokerSpec
  import BrokerTheorems

  lemma {:induction false} FailsOnAppend(runs: map<RunId, Run>, a: seq<RunId>, b: seq<RunId>, t: ThreadId,
                                         code: FailCode)
    ensures FailsOn(runs, a + b, t, code) == FailsOn(runs, a, t, code) + FailsOn(runs, b, t, code)
  {
    if a == [] {
      assert a + b == b;
    } else {
      var first := if a[0] in runs && runs[a[0]].thread == t then [Trusted(a[0], Fail(code, ""))] else [];
      calc {
        FailsOn(runs, a + b, t, code);
        { assert (a + b)[0] == a[0] && (a + b)[1..] == a[1..] + b; }
        first + FailsOn(runs, a[1..] + b, t, code);
        { FailsOnAppend(runs, a[1..], b, t, code); }
        first + (FailsOn(runs, a[1..], t, code) + FailsOn(runs, b, t, code));
        (first + FailsOn(runs, a[1..], t, code)) + FailsOn(runs, b, t, code);
        FailsOn(runs, a, t, code) + FailsOn(runs, b, t, code);
      }
    }
  }

  lemma {:induction false} ClaimedOfAppend(runs: map<RunId, Run>, a: seq<RunId>, b: seq<RunId>, agent: AgentRef)
    ensures ClaimedOf(runs, a + b, agent) == ClaimedOf(runs, a, agent) + ClaimedOf(runs, b, agent)
  {
    if a == [] {
      assert a + b == b;
    } else {
      var first := if a[0] in runs && runs[a[0]].agent == agent && runs[a[0]].claimedBy.Some? then [a[0]] else [];
      calc {
        ClaimedOf(runs, a + b, agent);
        { assert (a + b)[0] == a[0] && (a + b)[1..] == a[1..] + b; }
        first + ClaimedOf(runs, a[1..] + b, agent);
        { ClaimedOfAppend(runs, a[1..], b, agent); }
        first + (ClaimedOf(runs, a[1..], agent) + ClaimedOf(runs, b, agent));
        (first + ClaimedOf(runs, a[1..], agent)) + ClaimedOf(runs, b, agent);
        ClaimedOf(runs, a, agent) + ClaimedOf(runs, b, agent);
      }
    }
  }

  lemma {:induction false} ExpiredOfAppend(s: State, a: seq<RunId>, b: seq<RunId>)
    ensures ExpiredOf(s, a + b) == ExpiredOf(s, a) + ExpiredOf(s, b)
  {
    hide Expires;
    if a == [] {
      assert a + b == b;
    } else {
      var rest := ExpiredOf(s, a[1..]);
      ExpiredOfAppend(s, a[1..], b);
      assert (a + b)[0] == a[0] && (a + b)[1..] == a[1..] + b;
      var first := if a[0] in s.runs && Expires(s, s.runs[a[0]]) then [a[0]] else [];
      assert first + (rest + ExpiredOf(s, b)) == (first + rest) + ExpiredOf(s, b);
    }
  }

  lemma FailsOneMore(runs: map<RunId, Run>, ids: seq<RunId>, r: RunId, t: ThreadId, code: FailCode, h: ThreadHandler)
    requires r in runs
    ensures Put(h, FailsOn(runs, ids + [r], t, code))
            == if runs[r].thread == t then Put(Put(h, FailsOn(runs, ids, t, code)), [Trusted(r, Fail(code, ""))])
               else Put(h, FailsOn(runs, ids, t, code))
  {
    FailsOnAppend(runs, ids, [r], t, code);
    var one := FailsOn(runs, [r], t, code);
    assert one == if runs[r].thread == t then [Trusted(r, Fail(code, ""))] else [] by { assert [r][1..] == []; }
    assert h.inbox + (FailsOn(runs, ids, t, code) + one) == h.inbox + FailsOn(runs, ids, t, code) + one;
    assert FailsOn(runs, ids, t, code) + [] == FailsOn(runs, ids, t, code);
  }

  /** One more id to fail: its owner's inbox grows by one message, nobody else's does. */
  lemma PushOneMoreAt(s: State, ids: seq<RunId>, r: RunId, code: FailCode, t: ThreadId)
    requires r in s.runs && t in s.threads
    ensures PushFails(s, ids + [r], code).threads[t]
            == Post(PushFails(s, ids, code), r, Trusted(r, Fail(code, ""))).threads[t]
  {
    hide FailsOn, Put;
    FailsOneMore(s.runs, ids, r, t, code, s.threads[t]);
  }

  lemma PushOneMore(s: State, ids: seq<RunId>, r: RunId, code: FailCode)
    requires r in s.runs
    ensures PushFails(s, ids + [r], code) == Post(PushFails(s, ids, code), r, Trusted(r, Fail(code, "")))
  {
    hide FailsOn, Put;
    var a, b := PushFails(s, ids + [r], code), Post(PushFails(s, ids, code), r, Trusted(r, Fail(code, "")));
    forall t | t in s.threads ensures a.threads[t] == b.threads[t] { PushOneMoreAt(s, ids, r, code, t); }
    assert a.threads.Keys == s.threads.Keys && b.threads.Keys == s.threads.Keys;
    assert a.threads == b.threads;
  }

  lemma PushNone(s: State, code: FailCode)
    ensures PushFails(s, [], code) == s
  {
    forall t | t in s.threads ensures PushFails(s, [], code).threads[t] == s.threads[t] {
      assert FailsOn(s.runs, [], t, code) == [];
      assert s.threads[t].inbox + [] == s.threads[t].inbox;
    }
    assert PushFails(s, [], code).threads == s.threads;
  }

  /** Posting failures changes nothing the sweep looks at. */
  lemma PushKeeps(s: State, ids: seq<RunId>, code: FailCode)
    ensures var s' := PushFails(s, ids, code); s' == s.(threads := s'.threads)
  {
  }

  lemma SameExpiry(s: State, ids: seq<RunId>, run: Run)
    ensures Expires(PushFails(s, ids, NoProviderTookIt), run) == Expires(s, run)
  {
  }

  lemma ExpiredOfNone(s: State)
    ensures ExpiredOf(s, []) == []
  {
  }

  class RunBroker {
    var running: bool
    var now: int
    var lastSweep: int
    const timeout: int
    const tolerance: Option<int>
    var runs: map<RunId, Run>
    /** The ids in the order they were inserted, which is the order a dict is walked in. */
    var arrivals: seq<RunId>
    var threads: map<ThreadId, ThreadHandler>
    var serving: map<AgentRef, Key>
    var servingOrder: seq<AgentRef>
    var providers: map<Key, Provider>
    var unservedSince: map<AgentRef, int>
    var workToDo: bool
    ghost var done: map<RunId, Run>
    ghost var ledger: seq<Mark>
    ghost var offers: seq<OfferNote>

    ghost function Now(): State
      reads this
    {
      State(running, now, lastSweep, timeout, tolerance, runs, arrivals, done, threads, serving, servingOrder,
            providers, unservedSince, workToDo, ledger, offers)
    }

    constructor (clock: int, unservedTimeout: int, qualityTolerance: Option<int>)
      ensures Now() == Init(clock, unservedTimeout, qualityTolerance)
      ensures 0 < unservedTimeout ==> BrokerTheorems.Reachable(Now())
    {
      running, now, lastSweep, timeout, tolerance := false, clock, clock, unservedTimeout, qualityTolerance;
      runs, arrivals, threads := map[], [], map[];
      serving, servingOrder, providers, unservedSince, workToDo := map[], [], map[], map[], false;
      done, ledger, offers := map[], [], [];
      new;
      if 0 < unservedTimeout { BrokerTheorems.InitIsReachable(clock, unservedTimeout, qualityTolerance); }
    }

    method StartSweep()
      modifies this
      ensures Now() == Start(old(Now()))
    {
      if !running {
        running := true;
        lastSweep := now;
        workToDo := true;
      }
    }

    // ---- intake -------------------------------------------------------------------

    method EnqueueRun(r: RunId, agent: AgentRef, t: ThreadId, addressed: Option<RunId>, valid: bool)
        returns (accepted: bool)
      modifies this
      ensures accepted == old(running)
      ensures Now() == Enqueue(old(Now()), r, agent, t, addressed, valid)
    {
      accepted := running;
      if !running { return; }
      var run := Run(agent, t, addressed, valid, now, |arrivals|, None, None, 0, false, false, false,
                     None, false, false, [], [], [], 0);
      if t !in threads {
        threads := threads[t := ThreadHandler(agent, [], [], {})];
      }
      runs := runs[r := run];
      arrivals := arrivals + [r];
      threads := threads[t := Put(threads[t], [Queued(r)])];
    }

    // ---- the doors ----------------------------------------------------------------

    method PostTo(r: RunId, m: Message) returns (known: bool)
      modifies this
      ensures known == (r in old(runs)) && Now() == Post(old(Now()), r, m)
    {
      known := r in runs;
      if known && runs[r].thread in threads {
        threads := threads[runs[r].thread := Put(threads[runs[r].thread], [m])];
      }
    }

    method Answer(r: RunId, verdict: Verdict, key: Key) returns (known: bool)
      modifies this
      ensures known == (r in old(runs)) && Now() == AnswerOffer(old(Now()), r, key, verdict)
    {
      var m := Answered(r, key, verdict);
      if r in runs { runs := runs[r := runs[r].(posted := runs[r].posted + [m])]; }
      known := PostTo(r, m);
    }

    method Report(r: RunId, e: Event, origin: Key) returns (known: bool)
      modifies this
      ensures known == (r in old(runs)) && Now() == BrokerSpec.ReportEvent(old(Now()), r, e, origin)
    {
      var m := Said(r, origin, RelayEvent(e));
      if r in runs { runs := runs[r := runs[r].(posted := runs[r].posted + [m])]; }
      known := PostTo(r, m);
    }

    method Finish(r: RunId, origin: Key) returns (known: bool)
      modifies this
      ensures known == (r in old(runs)) && Now() == ReportFinish(old(Now()), r, origin)
    {
      var m := Said(r, origin, FinishStream);
      if r in runs { runs := runs[r := runs[r].(posted := runs[r].posted + [m])]; }
      known := PostTo(r, m);
    }

    method AskToCancel(r: RunId) returns (known: bool)
      modifies this
      ensures known == (r in old(runs)) && Now() == AskCancel(old(Now()), r)
    {
      if r !in runs { return false; }
      runs := runs[r := runs[r].(cancelRequested := true)];
      known := PostTo(r, CancelAsked(r));
    }

    // ---- pokes ----------------------------------------------------------------------

    method PokeThreads()
      modifies this
      ensures Now() == PokeAll(old(Now()))
    {
      ghost var all := threads;
      var todo := threads.Keys;
      while todo != {}
        invariant todo <= all.Keys && threads.Keys == all.Keys
        invariant forall t :: t in all ==> threads[t] == if t in todo then all[t] else Put(all[t], [Poke])
        invariant Now() == old(Now()).(threads := threads)
        decreases todo
      {
        var t :| t in todo;
        threads := threads[t := Put(threads[t], [Poke])];
        todo := todo - {t};
      }
      assert threads == PokeAll(old(Now())).threads;
    }

    method PokeThreadsOf(agent: AgentRef)
      modifies this
      ensures Now() == PokeAgent(old(Now()), agent)
    {
      ghost var all := threads;
      var todo := threads.Keys;
      while todo != {}
        invariant todo <= all.Keys && threads.Keys == all.Keys
        invariant forall t :: t in all ==>
                    threads[t] == if t in todo then all[t]
                                  else Put(all[t], if all[t].agent == agent then [Poke] else [])
        invariant Now() == old(Now()).(threads := threads)
        decreases todo
      {
        var t :| t in todo;
        assert all[t].inbox + [] == all[t].inbox;
        if threads[t].agent == agent { threads := threads[t := Put(threads[t], [Poke])]; }
        todo := todo - {t};
      }
      assert threads == PokeAgent(old(Now()), agent).threads;
    }

    // ---- the roster -------------------------------------------------------------------

    /** The connection serving an agent, if anybody serves it. */
    method ConnectionFor(agent: AgentRef) returns (connection: Option<Connection>)
      ensures connection == Serving(Now(), agent)
    {
      if agent !in serving { return None; }
      return ProviderOf(providers, serving[agent]).connection;
    }

    method PutInService(agent: AgentRef, connection: Connection)
      modifies this
      ensures Now() == RegisterOne(old(Now()), agent, connection)
    {
      if agent !in serving { servingOrder := servingOrder + [agent]; }
      serving := serving[agent := connection.key];
      providers := providers[connection.key :=
                     ProviderOf(providers, connection.key).(connection := Some(connection),
                                                            declared := connection.limit)];
      unservedSince := unservedSince - {agent};
    }

    method RegisterProvider(mapping: seq<(AgentRef, Connection)>)
      modifies this
      ensures Now() == Register(old(Now()), mapping)
    {
      hide RegisterOne, PokeAgent;
      var i := 0;
      while i < |mapping|
        invariant i <= |mapping|
        invariant RegisterEach(Now(), mapping[i..]) == RegisterEach(old(Now()), mapping)
      {
        PutInService(mapping[i].0, mapping[i].1);
        assert mapping[i..][1..] == mapping[i + 1..];
        i := i + 1;
      }
      workToDo := true;
      PokeThreadsOfEach(mapping);
    }

    method PokeThreadsOfEach(mapping: seq<(AgentRef, Connection)>)
      modifies this
      ensures Now() == PokeEach(old(Now()), mapping)
    {
      hide PokeAgent;
      var i := 0;
      while i < |mapping|
        invariant i <= |mapping|
        invariant PokeEach(Now(), mapping[i..]) == PokeEach(old(Now()), mapping)
      {
        PokeThreadsOf(mapping[i].0);
        assert mapping[i..][1..] == mapping[i + 1..];
        i := i + 1;
      }
    }

    method UnregisterProvider(agents: seq<AgentRef>)
      modifies this
      ensures Now() == Unregister(old(Now()), agents)
    {
      var i := 0;
      while i < |agents|
        invariant i <= |agents|
        invariant Unregister(Now(), agents[i..]) == Unregister(old(Now()), agents)
      {
        assert agents[i..][1..] == agents[i + 1..];
        TakeOutOfService(agents[i]);
        i := i + 1;
      }
    }

    method FailOneMore(ghost start: State, ghost ids: seq<RunId>, r: RunId, code: FailCode)
      requires r in start.runs && start.runs == runs
      requires Now() == PushFails(start, ids, code)
      modifies this
      ensures Now() == PushFails(start, ids + [r], code)
    {
      PushOneMore(start, ids, r, code);
      var _ := PostTo(r, Trusted(r, Fail(code, "")));
    }

    method FailIfHeld(ghost start: State, ghost failed: seq<RunId>, r: RunId, agent: AgentRef)
      requires Now() == PushFails(start, failed, ProviderLeftHoldingIt)
      modifies this
      ensures Now() == PushFails(start, failed + ClaimedOf(start.runs, [r], agent), ProviderLeftHoldingIt)
    {
      hide PushFails;
      PushKeeps(start, failed, ProviderLeftHoldingIt);
      ghost var held := r in start.runs && start.runs[r].agent == agent && start.runs[r].claimedBy.Some?;
      assert ClaimedOf(start.runs, [r], agent) == if held then [r] else [] by {
        assert [r][1..] == [];
      }
      assert failed + [] == failed;
      if r in runs && runs[r].agent == agent && runs[r].claimedBy.Some? {
        FailOneMore(start, failed, r, ProviderLeftHoldingIt);
      }
    }

    method FailHeldRunsOf(agent: AgentRef)
      modifies this
      ensures Now() == PushFails(old(Now()), ClaimedOf(old(runs), old(arrivals), agent), ProviderLeftHoldingIt)
    {
      hide PushFails;
      var ids := arrivals;
      PushNone(Now(), ProviderLeftHoldingIt);
      var j := 0;
      while j < |ids|
        invariant j <= |ids|
        invariant Now() == PushFails(old(Now()), ClaimedOf(old(runs), ids[..j], agent), ProviderLeftHoldingIt)
      {
        ClaimedOfAppend(old(runs), ids[..j], [ids[j]], agent);
        assert ids[..j + 1] == ids[..j] + [ids[j]];
        FailIfHeld(old(Now()), ClaimedOf(old(runs), ids[..j], agent), ids[j], agent);
        j := j + 1;
      }
      assert ids[..j] == ids;
    }

    method TakeOutOfService(agent: AgentRef)
      modifies this
      ensures Now() == UnregisterOne(old(Now()), agent)
    {
      hide PushFails, ClaimedOf;
      if agent !in serving { return; }
      serving := serving - {agent};
      servingOrder := Without(servingOrder, agent);
      unservedSince := unservedSince[agent := now];
      FailHeldRunsOf(agent);
      PokeThreadsOf(agent);
    }

    method NoteAbnormality(r: RunId, key: Key, c: Counter)
      modifies this
      ensures Now() == NoteAbnormal(old(Now()), r, key, c)
    {
      var p := ProviderOf(providers, key);
      p := p.(counters := Bump(p.counters, c));
      providers := providers[key := p];
      ledger := ledger + [Mark(r, key, c)];
      if tolerance.None? || CountOf(p.counters, c) < tolerance.value { return; }
      var agents := AgentsServedBy(serving, servingOrder, key);
      UnregisterProvider(agents);
    }

    // ---- the record, capacity, the end of a run -------------------------------------------

    method RecordCommand(r: RunId, c: Command)
      requires r in runs
      modifies this
      ensures Now() == Log(old(Now()), r, c)
    {
      var run := runs[r];
      runs := runs[r := run.(record := run.record + [Did(c, run.claimedBy, run.cancelRequested)])];
    }

    method ReleasePlace(r: RunId)
      requires r in runs
      modifies this
      ensures Now() == Release(old(Now()), r)
    {
      var key := runs[r].offeredTo;
      runs := runs[r := runs[r].(offeredTo := None, offeredConn := None)];
      if key.Some? && key.value in providers && providers[key.value].inFlight > 0 {
        var p := providers[key.value];
        providers := providers[key.value := p.(inFlight := p.inFlight - 1)];
      }
    }

    method ForgetRun(r: RunId)
      modifies this
      ensures Now() == Forget(old(Now()), r)
    {
      if r !in runs { return; }
      ReleasePlace(r);
      done := done[r := runs[r]];
      runs := runs - {r};
      workToDo := true;
      PokeThreads();
    }

    method SettleRun(t: ThreadId, r: RunId)
      requires t in threads && r in runs
      modifies this
      ensures Now() == Settle(old(Now()), t, r)
    {
      runs := runs[r := runs[r].(record := runs[r].record + [EndOfStream], clockDue := false)];
      var h := threads[t];
      threads := threads[t := h.(live := h.live - {r}, queue := RemoveFirst(h.queue, r))];
      ForgetRun(r);
    }

    // ---- offers -----------------------------------------------------------------------------

    method PlaceOffer(r: RunId, c: Connection, interjection: bool)
      requires r in runs
      modifies this
      ensures Now() == Offered(old(Now()), r, c, interjection)
    {
      var run := runs[r];
      runs := runs[r := run.(offeredTo := Some(c.key), offeredConn := Some(c), isInterjection := interjection,
                             offerId := run.offerId + 1, verdictOpen := true, clockDue := true)];
      var p := ProviderOf(providers, c.key);
      providers := providers[c.key := p.(inFlight := p.inFlight + 1)];
      offers := offers + [OfferNote(r, run.thread, run.arrival, run.addressed.None?)];
      RecordCommand(r, Offer);
    }

    method OfferRun(t: ThreadId, r: RunId, interjection: bool)
      requires t in threads && r in runs
      modifies this
      ensures Now() == OfferTo(old(Now()), t, r, interjection)
    {
      hide Offered, Settle, Serving, HasRoom, ProviderOf, Log, InsertSecond;
      var connection := ConnectionFor(runs[r].agent);
      if connection.None? || !HasRoom(ProviderOf(providers, connection.value.key)) {
        if interjection {
          threads := threads[t := threads[t].(queue := InsertSecond(threads[t].queue, r))];
        }
        return;
      }
      if !runs[r].validInput {
        EndRunUntaken(t, r, Fail(InputDoesNotValidate, INVALID_INPUT));
        return;
      }
      PlaceOffer(r, connection.value, interjection);
    }

    method JoinNow(t: ThreadId, r: RunId)
      modifies this
      ensures Now() == JoinOne(old(Now()), t, r)
    {
      hide OfferTo;
      if t in threads && r in runs {
        threads := threads[t := threads[t].(queue := RemoveFirst(threads[t].queue, r))];
        OfferRun(t, r, true);
      }
    }

    method ReleaseInterjectionsOf(t: ThreadId, head: RunId)
      requires t in threads
      modifies this
      ensures Now() == ReleaseInterjections(old(Now()), t, head)
    {
      hide JoinOne;
      var q := threads[t].queue;
      var joining := Joining(runs, if q == [] then [] else q[1..], head);
      var i := 0;
      while i < |joining|
        invariant i <= |joining|
        invariant JoinEach(Now(), t, joining[i..]) == JoinEach(old(Now()), t, joining)
      {
        assert joining[i..][1..] == joining[i + 1..];
        JoinNow(t, joining[i]);
        i := i + 1;
      }
    }

    method AdvanceThread(t: ThreadId)
      requires t in threads
      modifies this
      ensures Now() == Advance(old(Now()), t)
    {
      ghost var q0 := threads[t].queue;
      DropSettledHead(runs, q0);
      while threads[t].queue != [] && threads[t].queue[0] !in runs
        invariant t in threads && runs == old(runs)
        invariant DropSettled(runs, threads[t].queue) == DropSettled(runs, q0)
        invariant Now() == old(Now()).(threads := old(threads)[t := old(threads)[t].(queue := threads[t].queue)])
        decreases |threads[t].queue|
      {
        threads := threads[t := threads[t].(queue := threads[t].queue[1..])];
      }
      assert threads[t].queue == DropSettled(runs, q0);
      if threads[t].queue == [] { return; }
      var r := threads[t].queue[0];
      if runs[r].claimedBy.Some? || runs[r].verdictOpen || runs[r].offeredTo.Some? { return; }
      OfferRun(t, r, false);
    }

    // ---- the owner reading its inbox ----------------------------------------------------------

    method TakeIn(t: ThreadId, r: RunId)
      requires t in threads
      modifies this
      ensures Now() == OnQueued(old(Now()), t, r)
    {
      if r !in runs { return; }
      var h := threads[t];
      threads := threads[t := h.(live := h.live + {r})];
      var head := if h.queue != [] then Some(h.queue[0]) else None;
      if head.Some? && head.value in runs && runs[head.value].claimedBy.Some? && runs[r].addressed == head {
        OfferRun(t, r, true);
        return;
      }
      threads := threads[t := threads[t].(queue := threads[t].queue + [r])];
    }

    method CloseVerdictOn(r: RunId)
      requires r in runs
      modifies this
      ensures Now() == CloseVerdict(old(Now()), r)
    {
      runs := runs[r := runs[r].(verdictOpen := false, clockDue := false)];
    }

    method EndRunUntaken(t: ThreadId, r: RunId, c: Command)
      requires t in threads && r in runs
      modifies this
      ensures Now() == EndUntaken(old(Now()), t, r, c)
    {
      RecordCommand(r, c);
      SettleRun(t, r);
    }

    method NoteMisdeclaration(r: RunId, key: Key)
      modifies this
      ensures Now() == NoteMisdeclared(old(Now()), r, key)
    {
      if HasRoom(ProviderOf(providers, key)) { NoteAbnormality(r, key, Misdeclared); }
    }

    method JudgeVerdict(t: ThreadId, r: RunId, key: Key, verdict: Verdict)
      requires t in threads
      modifies this
      ensures Now() == OnAnswered(old(Now()), t, r, key, verdict)
    {
      hide OnAccepted, EndUntaken, NoteMisdeclared;
      if r !in threads[t].live || r !in runs || !runs[r].verdictOpen || runs[r].offeredTo != Some(key) { return; }
      var cancelRequested := runs[r].cancelRequested;
      CloseVerdictOn(r);
      match verdict
      case Refused(reason) =>
        ReleasePlace(r);
        EndRunUntaken(t, r, Fail(ProviderRefused, reason));
      case Declined =>
        ReleasePlace(r);
        if cancelRequested {
          EndRunUntaken(t, r, RequestCancel);
        } else {
          NoteMisdeclaration(r, key);
          EndRunUntaken(t, r, Fail(ProviderDeclined, ""));
        }
      case Accepted =>
        AcceptClaim(t, r, key);
    }

    method WriteClaim(r: RunId, key: Key)
      requires r in runs
      modifies this
      ensures Now() == SetRun(old(Now()), r, Claimed(old(runs)[r], key))
    {
      runs := runs[r := runs[r].(claimedBy := Some(key), claimedAt := |runs[r].heard|)];
      RecordCommand(r, Claim);
    }

    method AcceptClaim(t: ThreadId, r: RunId, key: Key)
      requires t in threads && r in runs
      modifies this
      ensures Now() == OnAccepted(old(Now()), t, r, key)
    {
      hide Claimed, Serving, ReleaseInterjections, Post;
      WriteClaim(r, key);
      var run := runs[r];
      var connection := ConnectionFor(run.agent);
      if connection != run.offeredConn {
        var _ := PostTo(r, Trusted(r, Fail(ProviderLeftHoldingIt, "")));
        return;
      }
      if !run.isInterjection { ReleaseInterjectionsOf(t, r); }
      if run.cancelRequested && r in runs { RecordCommand(r, RequestCancel); }
    }

    method RecordThenMaybeSettle(t: ThreadId, r: RunId, c: Command)
      requires t in threads && r in runs
      modifies this
      ensures Now() == RecordAndMaybeSettle(old(Now()), t, r, c)
    {
      RecordCommand(r, c);
      if c.RelayEvent? && Malformed(c.event) {
        RecordCommand(r, Fail(ProviderSentMalformedEvent, POISON));
        SettleRun(t, r);
      } else if c.FinishStream? {
        SettleRun(t, r);
      }
    }

    method HearSaid(t: ThreadId, r: RunId, origin: Key, c: Command)
      requires t in threads
      modifies this
      ensures Now() == OnSaid(old(Now()), t, r, origin, c)
    {
      if r !in threads[t].live || r !in runs { return; }
      if runs[r].claimedBy != Some(origin) { return; }
      RecordThenMaybeSettle(t, r, c);
    }

    method HearCancel(t: ThreadId, r: RunId)
      requires t in threads
      modifies this
      ensures Now() == OnCancelAsked(old(Now()), t, r)
    {
      if r !in threads[t].live || r !in runs { return; }
      runs := runs[r := runs[r].(cancelRequested := true)];
      if runs[r].verdictOpen { return; }
      var claimed := runs[r].claimedBy.Some?;
      RecordCommand(r, RequestCancel);
      if !claimed { SettleRun(t, r); }
    }

    method NoteOnceFor(r: RunId, c: Counter)
      requires r in runs
      modifies this
      ensures Now() == NoteOnce(old(Now()), r, c)
    {
      var run := runs[r];
      if run.claimedBy.None? || run.notedAbnormal { return; }
      runs := runs[r := run.(notedAbnormal := true)];
      NoteAbnormality(r, run.claimedBy.value, c);
    }

    method HearTrusted(t: ThreadId, r: RunId, c: Command)
      requires t in threads
      modifies this
      ensures Now() == OnTrusted(old(Now()), t, r, c)
    {
      if r !in threads[t].live || r !in runs { return; }
      if c.RequestCancel? {
        HearCancel(t, r);
      } else if c.Fail? {
        NoteOnceFor(r, Abandoned);
        RecordCommand(r, c);
        SettleRun(t, r);
      } else {
        RecordThenMaybeSettle(t, r, c);
      }
    }

    method HearUndelivered(t: ThreadId, r: RunId)
      requires t in threads
      modifies this
      ensures Now() == OnUndelivered(old(Now()), t, r)
    {
      if r !in threads[t].live || r !in runs { return; }
      NoteOnceFor(r, Undeliverable);
    }

    method HearLapse(t: ThreadId, r: RunId, offerId: nat)
      requires t in threads
      modifies this
      ensures Now() == OnOfferLapsed(old(Now()), t, r, offerId)
    {
      if r !in threads[t].live || r !in runs || !runs[r].verdictOpen || runs[r].offerId != offerId { return; }
      var run := runs[r];
      CloseVerdictOn(r);
      if run.offeredTo.Some? { NoteAbnormality(r, run.offeredTo.value, Unanswered); }
      ReleasePlace(r);
      EndRunUntaken(t, r, if run.cancelRequested then RequestCancel else Fail(ProviderDidNotAnswer, ""));
    }

    method HandleMessage(t: ThreadId, m: Message)
      requires t in threads
      modifies this
      ensures Now() == OnMessage(old(Now()), t, m)
    {
      match m
      case Queued(r) => TakeIn(t, r);
      case Answered(r, key, verdict) => JudgeVerdict(t, r, key, verdict);
      case Said(r, origin, c) => HearSaid(t, r, origin, c);
      case Trusted(r, c) => HearTrusted(t, r, c);
      case CancelAsked(r) => HearCancel(t, r);
      case OfferLapsed(r, offerId) => HearLapse(t, r, offerId);
      case Undelivered(r) => HearUndelivered(t, r);
      case Poke =>
    }

    /** One turn of an owner's loop: read a message, judge it, look at the queue, and
        leave when nothing is alive and nothing is waiting to be read. */
    method ThreadTurn(t: ThreadId)
      requires t in threads && threads[t].inbox != []
      modifies this
      ensures Now() == OwnerStep(old(Now()), t)
    {
      var h := threads[t];
      var m := h.inbox[0];
      threads := threads[t := h.(inbox := h.inbox[1..])];
      if (m.Answered? || m.Said?) && m.run in h.live && m.run in runs {
        runs := runs[m.run := runs[m.run].(heard := runs[m.run].heard + [m])];
      }
      assert Now() == Take(old(Now()), t);
      HandleMessage(t, m);
      AdvanceThread(t);
      if t in threads && threads[t].live == {} && threads[t].inbox == [] {
        threads := threads - {t};
      }
    }

    // ---- the clocks -----------------------------------------------------------------------------

    /** Whether the sweep gives up on a run: nobody holds it, nobody serves its agent,
        and both have been so for the whole timeout. */
    method GivesUpOn(r: RunId) returns (expired: bool)
      ensures expired == (r in runs && Expires(Now(), runs[r]))
    {
      if r !in runs { return false; }
      var run := runs[r];
      if run.claimedBy.Some? || run.offeredTo.Some? { return false; }
      var connection := ConnectionFor(run.agent);
      if connection.Some? { return false; }
      var reference := run.queuedAt;
      if run.agent in unservedSince && unservedSince[run.agent] > reference { reference := unservedSince[run.agent]; }
      return reference <= now - timeout;
    }

    method ConsiderExpiry(ghost start: State, expired: seq<RunId>, r: RunId) returns (more: seq<RunId>)
      requires Now() == PushFails(start, expired, NoProviderTookIt)
      modifies this
      ensures more == expired + ExpiredOf(start, [r])
      ensures Now() == PushFails(start, more, NoProviderTookIt)
    {
      hide PushFails, Serving, Expires;
      PushKeeps(start, expired, NoProviderTookIt);
      if r in start.runs { SameExpiry(start, expired, start.runs[r]); }
      assert ExpiredOf(start, [r]) == if r in start.runs && Expires(start, start.runs[r]) then [r] else [] by {
        assert [r][1..] == [];
      }
      var givesUp := GivesUpOn(r);
      more := expired;
      if givesUp {
        FailOneMore(start, expired, r, NoProviderTookIt);
        more := expired + [r];
      }
    }

    method ExpireQueued() returns (expired: seq<RunId>)
      modifies this
      ensures expired == ExpiredOf(old(Now()), old(arrivals))
      ensures Now() == PushFails(old(Now()), expired, NoProviderTookIt)
    {
      hide PushFails, ExpiredOf;
      var ids := arrivals;
      expired := [];
      PushNone(Now(), NoProviderTookIt);
      ExpiredOfNone(Now());
      var j := 0;
      while j < |ids|
        invariant j <= |ids|
        invariant expired == ExpiredOf(old(Now()), ids[..j])
        invariant Now() == PushFails(old(Now()), expired, NoProviderTookIt)
      {
        ExpiredOfAppend(old(Now()), ids[..j], [ids[j]]);
        assert ids[..j + 1] == ids[..j] + [ids[j]];
        expired := ConsiderExpiry(old(Now()), expired, ids[j]);
        j := j + 1;
      }
      assert ids[..j] == ids;
    }

    method SweepOnce()
      modifies this
      ensures Now() == Sweep(old(Now()))
    {
      var _ := ExpireQueued();
      workToDo, lastSweep := false, now;
      PokeThreads();
    }

    method OfferClockFires(r: RunId)
      requires r in runs
      modifies this
      ensures Now() == ClockFires(old(Now()), r)
    {
      var offerId := runs[r].offerId;
      runs := runs[r := runs[r].(clockDue := false)];
      var _ := PostTo(r, OfferLapsed(r, offerId));
    }

    method HandOverFails(t: ThreadId, r: RunId, offerId: nat)
      modifies this
      ensures Now() == PutAt(old(Now()), t, OfferLapsed(r, offerId))
    {
      if t in threads { threads := threads[t := Put(threads[t], [OfferLapsed(r, offerId)])]; }
    }

    method Perform(e: Step)
      requires Enabled(Now(), e)
      modifies this
      ensures Now() == Apply(old(Now()), e)
    {
      match e
      case DoStart => StartSweep();
      case DoEnqueue(r, a, t, addressed, valid) => var _ := EnqueueRun(r, a, t, addressed, valid);
      case DoAnswer(r, k, v) => var _ := Answer(r, v, k);
      case DoReport(r, ev, k) => var _ := Report(r, ev, k);
      case DoFinish(r, k) => var _ := Finish(r, k);
      case DoCancel(r) => var _ := AskToCancel(r);
      case DoFail(r, code) => var _ := PostTo(r, Trusted(r, Fail(code, "")));
      case DoUndelivered(r) => var _ := PostTo(r, Undelivered(r));
      case DoRegister(mapping) => RegisterProvider(mapping);
      case DoUnregister(agents) => UnregisterProvider(agents);
      case DoOwner(t) => ThreadTurn(t);
      case DoClock(r) => OfferClockFires(r);
      case DoHandOverFails(t, r, o) => HandOverFails(t, r, o);
      case DoSweep => SweepOnce();
      case DoTime(d) => now := now + d;
    }

    /** A whole run of the broker object: it ends where the step system says, so what is
        proved of reachable brokers holds of the object, however it got there. */
    method PerformAll(steps: seq<Step>)
      requires Legal(Now(), steps)
      modifies this
      ensures Now() == Exec(old(Now()), steps)
      ensures BrokerTheorems.Reachable(old(Now())) ==> BrokerTheorems.Reachable(Now())
    {
      hide Apply, Enabled, BrokerTheorems.Reachable;
      var i := 0;
      while i < |steps|
        invariant i <= |steps| && Legal(Now(), steps[i..])
        invariant Exec(Now(), steps[i..]) == Exec(old(Now()), steps)
        invariant BrokerTheorems.Reachable(old(Now())) ==> BrokerTheorems.Reachable(Now())
      {
        assert steps[i..][0] == steps[i] && steps[i..][1..] == steps[i + 1..];
        if BrokerTheorems.Reachable(Now()) { BrokerTheorems.StepReaches(Now(), steps[i]); }
        Perform(steps[i]);
        i := i + 1;
      }
    }
  }
}
