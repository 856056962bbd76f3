/** The broker's shared operations, shown to be noise to every run: pokes, posted
    ends, and taking agents out of service. */
module BrokerNoise {
  import opened Vocabulary
  import opened BrokerSpec
  import opened BrokerInvariant

  /** Messages that are noise, added to inboxes and nothing else changed. */
  lemma InboxNoise(s: State, s': State)
    requires s' == s.(threads := s'.threads) && s'.threads.Keys == s.threads.Keys
    requires forall t :: t in s.threads ==> Louder(s.threads[t], s'.threads[t])
    ensures Noise(s, s')
  {
  }

  ghost predicate Louder(h: ThreadHandler, h': ThreadHandler) {
    h' == h.(inbox := h'.inbox) && NoisyInbox(h.inbox, h'.inbox)
  }

  lemma PutIsLouder(h: ThreadHandler, ms: seq<Message>)
    requires forall i :: 0 <= i < |ms| ==> NoiseMessage(ms[i])
    ensures Louder(h, Put(h, ms))
  {
  }

  lemma PokeAllIsNoise(s: State)
    ensures Noise(s, PokeAll(s))
  {
    forall t | t in s.threads ensures Louder(s.threads[t], PokeAll(s).threads[t]) {
      PutIsLouder(s.threads[t], [Poke]);
    }
    InboxNoise(s, PokeAll(s));
  }

  lemma PokeAgentIsNoise(s: State, a: AgentRef)
    ensures Noise(s, PokeAgent(s, a))
  {
    forall t | t in s.threads ensures Louder(s.threads[t], PokeAgent(s, a).threads[t]) {
      PutIsLouder(s.threads[t], if s.threads[t].agent == a then [Poke] else []);
    }
    InboxNoise(s, PokeAgent(s, a));
  }

  lemma {:induction false} FailsOnAreFails(runs: map<RunId, Run>, ids: seq<RunId>, t: ThreadId, code: FailCode)
    ensures forall i :: 0 <= i < |FailsOn(runs, ids, t, code)| ==> NoiseMessage(FailsOn(runs, ids, t, code)[i])
    ensures forall r :: r in ids && r in runs && runs[r].thread == t ==> FailIn(FailsOn(runs, ids, t, code), r)
  {
    if ids != [] {
      FailsOnAreFails(runs, ids[1..], t, code);
      var rest := FailsOn(runs, ids[1..], t, code);
      var all := FailsOn(runs, ids, t, code);
      forall r | r in ids && r in runs && runs[r].thread == t
        ensures FailIn(all, r)
      {
        if r == ids[0] {
          assert IsFail(all[0], r);
        } else {
          var i :| 0 <= i < |rest| && IsFail(rest[i], r);
          assert all[|all| - |rest| + i] == rest[i];
        }
      }
    }
  }

  lemma FailInSuffix(a: seq<Message>, b: seq<Message>, r: RunId)
    requires FailIn(b, r)
    ensures FailIn(a + b, r)
  {
    var i :| 0 <= i < |b| && IsFail(b[i], r);
    assert (a + b)[|a| + i] == b[i];
  }

  lemma PushFailsPosts(s: State, ids: seq<RunId>, code: FailCode, r: RunId)
    requires r in ids && r in s.runs && s.runs[r].thread in s.threads
    ensures FailIn(PushFails(s, ids, code).threads[s.runs[r].thread].inbox, r)
  {
    var t := s.runs[r].thread;
    FailsOnAreFails(s.runs, ids, t, code);
    FailInSuffix(s.threads[t].inbox, FailsOn(s.runs, ids, t, code), r);
  }

  lemma PushFailsIsNoise(s: State, ids: seq<RunId>, code: FailCode)
    ensures Noise(s, PushFails(s, ids, code))
  {
    forall t | t in s.threads ensures Louder(s.threads[t], PushFails(s, ids, code).threads[t]) {
      FailsOnAreFails(s.runs, ids, t, code);
      PutIsLouder(s.threads[t], FailsOn(s.runs, ids, t, code));
    }
    InboxNoise(s, PushFails(s, ids, code));
  }

  lemma PostIsNoise(s: State, r: RunId, m: Message)
    requires NoiseMessage(m)
    ensures Noise(s, Post(s, r, m))
  {
    var s' := Post(s, r, m);
    forall t | t in s.threads ensures Louder(s.threads[t], s'.threads[t]) {
      PutIsLouder(s.threads[t], [m]);
    }
    InboxNoise(s, s');
  }

  lemma {:induction false} ClaimedOfHolds(runs: map<RunId, Run>, ids: seq<RunId>, a: AgentRef)
    ensures forall r :: r in ids && r in runs && runs[r].agent == a && runs[r].claimedBy.Some?
                    ==> r in ClaimedOf(runs, ids, a)
  {
    if ids != [] { ClaimedOfHolds(runs, ids[1..], a); }
  }

  lemma {:induction false} WithoutDrops(order: seq<AgentRef>, a: AgentRef)
    ensures forall b :: b in Without(order, a) <==> b in order && b != a
    ensures Distinct(order) ==> Distinct(Without(order, a))
  {
    if order != [] {
      WithoutDrops(order[1..], a);
      assert order == [order[0]] + order[1..];
      if Distinct(order) {
        assert Distinct(order[1..]);
        assert order[0] !in order[1..];
      }
    }
  }

  /** Taking one agent out of service, seen from the runs it leaves behind. */
  lemma UnregisterOneIsNoise(s: State, a: AgentRef)
    ensures Noise(s, UnregisterOne(s, a))
  {
    if a in s.serving {
      var s1 := s.(serving := s.serving - {a}, servingOrder := Without(s.servingOrder, a),
                   unservedSince := s.unservedSince[a := s.now]);
      var ids := ClaimedOf(s1.runs, s1.arrivals, a);
      var s2 := PushFails(s1, ids, ProviderLeftHoldingIt);
      PushFailsIsNoise(s1, ids, ProviderLeftHoldingIt);
      forall r | r in s.runs && s.runs[r].claimedBy.Some? && s.runs[r].agent == a
                 && s.runs[r].thread in s.threads && r in s.arrivals
        ensures FailIn(s2.threads[s.runs[r].thread].inbox, r)
      {
        ClaimedOfHolds(s1.runs, s1.arrivals, a);
        PushFailsPosts(s1, ids, ProviderLeftHoldingIt, r);
      }
      WithoutDrops(s.servingOrder, a);
      LeavingIsNoise(s, s1, s2, a);
      PokeAgentIsNoise(s2, a);
      NoiseTransitive(s, s2, PokeAgent(s2, a));
    }
  }

  lemma LeavingIsNoise(s: State, s1: State, s2: State, a: AgentRef)
    requires a in s.serving
    requires s1 == s.(serving := s.serving - {a}, servingOrder := s1.servingOrder,
                      unservedSince := s.unservedSince[a := s.now])
    requires Distinct(s.servingOrder) ==> Distinct(s1.servingOrder)
    requires forall b :: b in s1.servingOrder <==> b in s.servingOrder && b != a
    requires Noise(s1, s2) && s2.serving == s1.serving && s2.unservedSince == s1.unservedSince
    requires forall r :: r in s.runs && s.runs[r].claimedBy.Some? && s.runs[r].agent == a
                         && s.runs[r].thread in s.threads && r in s.arrivals ==>
               FailIn(s2.threads[s.runs[r].thread].inbox, r)
    ensures Noise(s, s2)
  {
    assert Roster(s.serving, s.servingOrder, s.providers) ==> Roster(s1.serving, s1.servingOrder, s1.providers);
  }

  lemma {:induction false} UnregisterIsNoise(s: State, agents: seq<AgentRef>)
    ensures Noise(s, Unregister(s, agents))
    ensures forall a :: a in agents ==> a !in Unregister(s, agents).serving
    decreases |agents|
  {
    if agents != [] {
      var s1 := UnregisterOne(s, agents[0]);
      UnregisterOneIsNoise(s, agents[0]);
      UnregisterIsNoise(s1, agents[1..]);
      NoiseTransitive(s, s1, Unregister(s1, agents[1..]));
      assert agents[0] !in s1.serving;
      assert agents[0] !in Unregister(s1, agents[1..]).serving;
    }
  }

  /** A mark on the books, before the tolerance is applied. */
  function Bumped(s: State, r: RunId, k: Key, c: Counter): State {
    var p := ProviderOf(s.providers, k);
    s.(providers := s.providers[k := p.(counters := Bump(p.counters, c))],
       ledger := s.ledger + [Mark(r, k, c)])
  }

  lemma NoteIsBumpAndNoise(s: State, r: RunId, k: Key, c: Counter)
    ensures Noise(Bumped(s, r, k, c), NoteAbnormal(s, r, k, c))
  {
    var s1 := Bumped(s, r, k, c);
    var agents := AgentsServedBy(s1.serving, s1.servingOrder, k);
    UnregisterIsNoise(s1, agents);
    UnregisterIsNoise(s1, []);
  }

  lemma CountGrows(ledger: seq<Mark>, m: Mark, k: Key, c: Counter)
    ensures Count(ledger + [m], k, c) == Count(ledger, k, c) + (if m.key == k && m.counter == c then 1 else 0)
  {
    assert (ledger + [m])[..|ledger|] == ledger;
  }

  /** A first mark for a run keeps the ledger in step with the counters. */
  lemma BumpedLedger(s: State, r: RunId, k: Key, c: Counter)
    requires Ledger(s.ledger, s.providers, s.arrivals) && !Marked(s.ledger, r) && r in s.arrivals
    ensures var s' := Bumped(s, r, k, c); Ledger(s'.ledger, s'.providers, s'.arrivals)
  {
    var s' := Bumped(s, r, k, c);
    forall j, d ensures CountOf(ProviderOf(s'.providers, j).counters, d) == Count(s'.ledger, j, d) {
      CountGrows(s.ledger, Mark(r, k, c), j, d);
      assert CountOf(ProviderOf(s.providers, j).counters, d) == Count(s.ledger, j, d);
    }
    forall i, j | 0 <= i < j < |s'.ledger| ensures s'.ledger[i].run != s'.ledger[j].run {
      assert s'.ledger[i] == s.ledger[i];
      if j < |s.ledger| { assert s'.ledger[j] == s.ledger[j]; }
    }
  }

  lemma BumpedRuns(s: State, r: RunId, k: Key, c: Counter, x: set<RunId>)
    requires RunsOK(s, x) && r in x && Books(s)
    ensures RunsOK(Bumped(s, r, k, c), x) && Books(Bumped(s, r, k, c))
  {
    hide Fits;
    var s' := Bumped(s, r, k, c);
    forall q | q in s'.runs && q !in x ensures RunOK(s', q) {
      assert RunOK(s, q);
      assert Marked(s'.ledger, q) ==> Marked(s.ledger, q) by {
        if Marked(s'.ledger, q) {
          var i :| 0 <= i < |s'.ledger| && s'.ledger[i].run == q;
          assert s.ledger[i].run == q;
        }
      }
    }
  }

  lemma BumpedRest(s: State, r: RunId, k: Key, c: Counter, busy: Focus)
    requires Roster(s.serving, s.servingOrder, s.providers) && Capacity(s.runs, s.providers) && Rested(s, busy)
    ensures var s' := Bumped(s, r, k, c);
            Roster(s'.serving, s'.servingOrder, s'.providers) && Capacity(s'.runs, s'.providers) && Rested(s', busy)
  {
    var s' := Bumped(s, r, k, c);
    forall j ensures ProviderOf(s'.providers, j).inFlight == |Holding(s'.runs, j)| {
      assert ProviderOf(s.providers, j).inFlight == |Holding(s.runs, j)|;
    }
    forall t | t in s'.threads && !On(busy, t) ensures Alive(s'.threads[t]) && (busy.Freeing? || Awake(s', t)) {
      assert busy.Freeing? || Awake(s, t);
    }
  }

  /** Marking the run an owner is working on, when it has no mark yet. */
  lemma NoteKeeps(s: State, r: RunId, k: Key, c: Counter, x: set<RunId>, busy: Focus)
    requires Inv(s, x, busy) && r in x && r in s.runs && !Marked(s.ledger, r)
    ensures Inv(NoteAbnormal(s, r, k, c), x, busy)
  {
    hide Roster, Capacity, Working, ThreadsOK, Rested, RunsOK, DoneOK, Ledger, Lines, OffersOK, Noise;
    var s1 := Bumped(s, r, k, c);
    assert Inv(s1, x, busy) by {
      assert r in s.arrivals;
      hide Books;
      BumpedLedger(s, r, k, c);
      BumpedRuns(s, r, k, c, x);
      BumpedRest(s, r, k, c, busy);
    }
    NoteIsBumpAndNoise(s, r, k, c);
    NoiseKeeps(s1, NoteAbnormal(s, r, k, c), x, busy);
  }
}
