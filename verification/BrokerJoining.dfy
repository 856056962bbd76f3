/** What becomes of the runs that asked to join another: pulled out of the queue when the
    run they address is taken, or on arrival when it already was. */
module BrokerJoining {
  import opened Vocabulary
  import opened BrokerSpec
  import opened BrokerInvariant
  import opened BrokerSteps
  import opened BrokerOwner
  import opened BrokerConduct
  import opened BrokerCancel
  import opened BrokerTheorems
  import opened BrokerReading

  // ---- one run, let in beside the turn it joins --------------------------------------------

  /** Given an interjection's offer: on whose behalf, to whom, and recorded. */
  function OfferedBeside(run: Run, c: Connection): Run {
    run.(offeredTo := Some(c.key), offeredConn := Some(c), isInterjection := true, offerId := run.offerId + 1,
         verdictOpen := true, clockDue := true, record := run.record + [Did(Offer, run.claimedBy, run.cancelRequested)])
  }

  function NoteOf(r: RunId, run: Run): OfferNote {
    OfferNote(r, run.thread, run.arrival, run.addressed.None?)
  }

  /** The three things that can become of it: no room and it waits, an input that does not
      validate and it is over, an offer. */
  datatype Fate = Waits | Ends | GetsOffer

  ghost predicate Meets(s: State, s': State, r: RunId, fate: Fate)
    requires r in s.runs
  {
    var run := s.runs[r];
    match fate
    case Waits => StandsAt(s', r, run) && !CanOffer(s', run.agent)
    case Ends => !run.validInput && OverWith(s', r, run, [Fail(InputDoesNotValidate, INVALID_INPUT)])
    case GetsOffer =>
      && run.validInput && Serving(s, run.agent).Some?
      && StandsAt(s', r, OfferedBeside(run, Serving(s, run.agent).value))
  }

  /** The roster is as it was, and there is no more room anywhere than there was. */
  ghost predicate NoMoreRoom(s: State, s': State) {
    && s'.serving == s.serving
    && (forall k :: ProviderOf(s'.providers, k).connection == ProviderOf(s.providers, k).connection)
    && (forall k :: ProviderOf(s'.providers, k).declared == ProviderOf(s.providers, k).declared)
    && (forall k :: ProviderOf(s'.providers, k).inFlight >= ProviderOf(s.providers, k).inFlight)
  }

  lemma RoomOnlyShrinks(s: State, s': State, a: AgentRef)
    requires NoMoreRoom(s, s')
    ensures Serving(s', a) == Serving(s, a) && (CanOffer(s', a) ==> CanOffer(s, a))
  {
  }

  function Queue(s: State, t: ThreadId): seq<RunId> {
    if t in s.threads then s.threads[t].queue else []
  }

  /** One run was let in: what became of it, and that nothing else did. */
  ghost predicate LetIn(s: State, s': State, t: ThreadId, r: RunId, fate: Fate) {
    && r in s.runs && Meets(s, s', r, fate) && NoMoreRoom(s, s') && t in s.threads && t in s'.threads
    && (forall q :: q in s.runs && q != r ==> q in s'.runs && s'.runs[q] == s.runs[q])
    && (forall q :: q in s.done ==> q in s'.done && s'.done[q] == s.done[q] && q !in s'.runs)
    && s'.runs.Keys !! s'.done.Keys && s'.ledger == s.ledger
    && s'.offers == s.offers + (if fate.GetsOffer? then [NoteOf(r, s.runs[r])] else [])
    && s'.threads[t].live == (if fate.Ends? then s.threads[t].live - {r} else s.threads[t].live)
    && Queue(s', t) == if fate.Waits? then InsertedSecond(Queue(s, t), r) else Queue(s, t)
  }

  /** Right behind the head, or first where there is none. */
  function InsertedSecond(q: seq<RunId>, r: RunId): seq<RunId> {
    if q == [] then [r] else [q[0], r] + q[1..]
  }

  lemma {:induction false} RemoveAbsent(q: seq<RunId>, r: RunId)
    requires r !in q
    ensures RemoveFirst(q, r) == q
  {
    if q != [] { RemoveAbsent(q[1..], r); }
  }

  lemma SameRoom(s: State, s': State)
    requires s'.serving == s.serving && s'.providers == s.providers
    ensures NoMoreRoom(s, s')
  {
  }

  lemma LetInByEnd(s: State, s': State, t: ThreadId, r: RunId)
    requires t in s.threads && r in s.runs && !s.runs[r].validInput && s.runs.Keys !! s.done.Keys
    requires s'.providers == s.providers && s'.serving == s.serving && s'.offers == s.offers && s'.ledger == s.ledger
    requires t in s'.threads && s'.threads[t].queue == s.threads[t].queue
    requires s'.threads[t].live == s.threads[t].live - {r}
    requires s'.runs == s.runs - {r} && r in s'.done && s'.done == s.done[r := s'.done[r]]
    requires OverWith(s', r, s.runs[r], [Fail(InputDoesNotValidate, INVALID_INPUT)])
    ensures LetIn(s, s', t, r, Ends)
  {
    SameRoom(s, s');
    hide NoMoreRoom, OverWith;
    assert s.offers + [] == s.offers;
  }

  lemma InvalidEnds(s: State, t: ThreadId, r: RunId)
    requires t in s.threads && r in s.runs && r !in s.threads[t].queue && s.runs[r].offeredTo.None?
    requires !s.runs[r].validInput && s.runs.Keys !! s.done.Keys
    ensures LetIn(s, Settle(Log(s, r, Fail(InputDoesNotValidate, INVALID_INPUT)), t, r), t, r, Ends)
  {
    var c := Fail(InputDoesNotValidate, INVALID_INPUT);
    EndsWithOne(s, t, r, c);
    SettledFrame(s, t, r, c);
    assert r in Settle(Log(s, r, c), t, r).done;
    hide Settle, OverWith, LetIn, Log;
    LetInByEnd(s, Settle(Log(s, r, c), t, r), t, r);
  }

  lemma SettledFrame(s: State, t: ThreadId, r: RunId, c: Command)
    requires t in s.threads && r in s.runs && r !in s.threads[t].queue && s.runs[r].offeredTo.None?
    requires s.runs.Keys !! s.done.Keys
    ensures var s' := Settle(Log(s, r, c), t, r);
            && s'.providers == s.providers && s'.serving == s.serving && s'.offers == s.offers && s'.ledger == s.ledger
            && t in s'.threads && s'.threads[t].queue == s.threads[t].queue
            && s'.threads[t].live == s.threads[t].live - {r}
            && s'.runs == s.runs - {r} && s'.done == s.done[r := s'.done[r]] && s'.runs.Keys !! s'.done.Keys
  {
    SettleIs(Log(s, r, c), t, r);
    RemoveAbsent(s.threads[t].queue, r);
    hide Settle, RemoveFirst;
  }

  lemma WaitsOutside(s: State, t: ThreadId, r: RunId)
    requires t in s.threads && r in s.runs && !CanOffer(s, s.runs[r].agent) && s.runs.Keys !! s.done.Keys
    ensures LetIn(s, s.(threads := s.threads[t := s.threads[t].(queue := InsertSecond(s.threads[t].queue, r))]), t,
                  r, Waits)
  {
    var s' := s.(threads := s.threads[t := s.threads[t].(queue := InsertSecond(s.threads[t].queue, r))]);
    SameRoom(s, s');
    assert !CanOffer(s', s.runs[r].agent);
    hide NoMoreRoom, CanOffer, Serving;
    assert s.offers + [] == s.offers;
    assert InsertSecond(s.threads[t].queue, r) == InsertedSecond(Queue(s, t), r);
  }

  lemma OfferedInside(s: State, t: ThreadId, r: RunId)
    requires t in s.threads && r in s.runs && CanOffer(s, s.runs[r].agent) && s.runs[r].validInput
    requires s.runs.Keys !! s.done.Keys
    ensures LetIn(s, Offered(s, r, Serving(s, s.runs[r].agent).value, true), t, r, GetsOffer)
  {
    var c := Serving(s, s.runs[r].agent).value;
    RoomTaken(s, r, c);
    hide NoMoreRoom, Serving, CanOffer;
  }

  lemma RoomTaken(s: State, r: RunId, c: Connection)
    requires r in s.runs
    ensures NoMoreRoom(s, Offered(s, r, c, true))
  {
  }

  function FateOf(s: State, r: RunId): Fate
    requires r in s.runs
  {
    if !CanOffer(s, s.runs[r].agent) then Waits else if !s.runs[r].validInput then Ends else GetsOffer
  }

  lemma OfferLetsIn(s: State, t: ThreadId, r: RunId)
    requires t in s.threads && r in s.runs && r !in s.threads[t].queue && Idle(s.runs[r]) && s.runs.Keys !! s.done.Keys
    ensures LetIn(s, OfferTo(s, t, r, true), t, r, FateOf(s, r))
  {
    hide Settle, OverWith, LetIn, Offered, InsertSecond;
    if !CanOffer(s, s.runs[r].agent) {
      WaitsOutside(s, t, r);
    } else if !s.runs[r].validInput {
      InvalidEnds(s, t, r);
    } else {
      OfferedInside(s, t, r);
    }
  }

  // ---- all of them, in order ---------------------------------------------------------------------

  /** The queued runs that asked to join `head`, in order, and the ones that did not. */
  function Joiners(runs: map<RunId, Run>, q: seq<RunId>, head: RunId): seq<RunId> {
    if q == [] then []
    else
      (if q[0] in runs && runs[q[0]].addressed == Some(head) then [q[0]] else []) + Joiners(runs, q[1..], head)
  }

  function Others(runs: map<RunId, Run>, q: seq<RunId>, head: RunId): seq<RunId> {
    if q == [] then []
    else
      (if q[0] in runs && runs[q[0]].addressed == Some(head) then [] else [q[0]]) + Others(runs, q[1..], head)
  }

  function Backwards(q: seq<RunId>): seq<RunId> {
    if q == [] then [] else Backwards(q[1..]) + [q[0]]
  }

  function Notes(runs: map<RunId, Run>, ids: seq<RunId>): seq<OfferNote>
    requires forall i :: 0 <= i < |ids| ==> ids[i] in runs
  {
    seq(|ids|, i requires 0 <= i < |ids| => NoteOf(ids[i], runs[ids[i]]))
  }

  function RemoveAll(q: seq<RunId>, ids: seq<RunId>): seq<RunId>
    decreases |ids|
  {
    if ids == [] then q else RemoveAll(RemoveFirst(q, ids[0]), ids[1..])
  }

  /** `part` is some of `ids`, in the same order. */
  ghost predicate SomeOf(part: seq<RunId>, ids: seq<RunId>) {
    if part == [] then true
    else ids != [] && (if ids[0] == part[0] then SomeOf(part[1..], ids[1..]) else SomeOf(part, ids[1..]))
  }

  function FateIn(r: RunId, offered: seq<RunId>, waiting: seq<RunId>): Fate {
    if r in offered then GetsOffer else if r in waiting then Waits else Ends
  }

  /** Those offered and those left waiting, each in the order of `ids`; the others are over. */
  ghost predicate FatesMet(s: State, s': State, ids: seq<RunId>, offered: seq<RunId>, waiting: seq<RunId>) {
    && (forall i :: 0 <= i < |ids| ==> ids[i] in s.runs)
    && (forall i :: 0 <= i < |ids| ==> Meets(s, s', ids[i], FateIn(ids[i], offered, waiting)))
    && (forall i :: 0 <= i < |offered| ==> offered[i] in ids)
    && SomeOf(offered, ids) && SomeOf(waiting, ids)
  }

  /** No other run was touched, and none that was over. */
  ghost predicate RunsKept(s: State, s': State, ids: seq<RunId>) {
    && (forall q :: q in s.runs && q !in ids ==> q in s'.runs && s'.runs[q] == s.runs[q])
    && (forall q :: q in s.done ==> q in s'.done && s'.done[q] == s.done[q] && q !in s'.runs)
    && s'.runs.Keys !! s'.done.Keys && s'.ledger == s.ledger
  }

  /** Nor does their owner lose sight of any. */
  ghost predicate OwnerKept(s: State, s': State, t: ThreadId, ids: seq<RunId>) {
    && t in s.threads && t in s'.threads
    && (forall q :: q !in ids ==> (q in s'.threads[t].live <==> q in s.threads[t].live))
  }

  ghost predicate RestKept(s: State, s': State, t: ThreadId, ids: seq<RunId>) {
    NoMoreRoom(s, s') && RunsKept(s, s', ids) && OwnerKept(s, s', t, ids)
  }

  ghost predicate AllLetIn(s: State, s': State, t: ThreadId, ids: seq<RunId>, offered: seq<RunId>,
                           waiting: seq<RunId>) {
    && FatesMet(s, s', ids, offered, waiting) && RestKept(s, s', t, ids)
    && s'.offers == s.offers + Notes(s.runs, offered)
  }

  lemma {:induction false} CutFromRest(front: seq<RunId>, rest: seq<RunId>, x: RunId)
    requires x !in front
    ensures RemoveFirst(front + rest, x) == front + RemoveFirst(rest, x)
  {
    if front == [] {
      assert front + rest == rest;
    } else {
      calc {
        RemoveFirst(front + rest, x);
        { assert (front + rest)[0] == front[0] && (front + rest)[1..] == front[1..] + rest; }
        [front[0]] + RemoveFirst(front[1..] + rest, x);
        { CutFromRest(front[1..], rest, x); }
        [front[0]] + (front[1..] + RemoveFirst(rest, x));
        ([front[0]] + front[1..]) + RemoveFirst(rest, x);
        front + RemoveFirst(rest, x);
      }
    }
  }

  /** A queue read as its head, those that came back to wait, and the rest. */
  ghost predicate QueueIs(q: seq<RunId>, h: RunId, front: seq<RunId>, rest: seq<RunId>) {
    q == [h] + front + rest && Distinct(q)
  }

  lemma CutOne(q: seq<RunId>, h: RunId, front: seq<RunId>, rest: seq<RunId>, x: RunId)
    requires QueueIs(q, h, front, rest) && x in rest
    ensures QueueIs(RemoveFirst(q, x), h, front, RemoveFirst(rest, x)) && x !in RemoveFirst(q, x)
    ensures QueueIs(InsertedSecond(RemoveFirst(q, x), x), h, [x] + front, RemoveFirst(rest, x))
    ensures forall y :: y in rest && y != x ==> y in RemoveFirst(rest, x)
  {
    NotInFront(q, h, front, rest, x);
    assert q == ([h] + front) + rest;
    CutFromRest([h] + front, rest, x);
    RemoveFirstDrops(q, x);
    hide RemoveFirst;
    BackBehindHead(RemoveFirst(q, x), h, front, RemoveFirst(rest, x), x);
    forall y | y in rest && y != x ensures y in RemoveFirst(rest, x) { StaysIn(rest, x, y); }
  }

  lemma NotInFront(q: seq<RunId>, h: RunId, front: seq<RunId>, rest: seq<RunId>, x: RunId)
    requires QueueIs(q, h, front, rest) && x in rest
    ensures x !in [h] + front
  {
    var p :| 0 <= p < |rest| && rest[p] == x;
    assert q[1 + |front| + p] == x;
    assert forall i :: 0 <= i < 1 + |front| ==> q[i] == ([h] + front)[i];
  }

  lemma BackBehindHead(q: seq<RunId>, h: RunId, front: seq<RunId>, rest: seq<RunId>, x: RunId)
    requires QueueIs(q, h, front, rest) && x !in q
    ensures QueueIs(InsertedSecond(q, x), h, [x] + front, rest)
  {
    var q2 := InsertedSecond(q, x);
    assert q2 == [h] + ([x] + front) + rest;
    forall i, j | 0 <= i < j < |q2| ensures q2[i] != q2[j] {
      assert q2[j] == if j == 1 then x else q[j - 1];
      assert q2[i] == if i == 0 then h else if i == 1 then x else q[i - 1];
    }
  }

  lemma {:induction false} StaysIn(q: seq<RunId>, x: RunId, y: RunId)
    requires y in q && y != x
    ensures y in RemoveFirst(q, x)
  {
    if q[0] != x && q[0] != y { StaysIn(q[1..], x, y); }
  }

  lemma FirstThenRestKept(s: State, s0: State, s1: State, s': State, t: ThreadId, ids: seq<RunId>, fate: Fate)
    requires ids != [] && s0 == s.(threads := s0.threads) && t in s.threads && t in s0.threads
    requires s0.threads[t].live == s.threads[t].live
    requires LetIn(s0, s1, t, ids[0], fate) && RestKept(s1, s', t, ids[1..])
    ensures RestKept(s, s', t, ids)
  {
    assert ids == [ids[0]] + ids[1..];
    hide Meets;
    assert NoMoreRoom(s0, s1) && NoMoreRoom(s1, s');
    RoomOn(s, s0, s1, s');
    FirstThenRunsKept(s, s0, s1, s', t, ids, fate);
    FirstThenOwnerKept(s, s0, s1, s', t, ids, fate);
    hide NoMoreRoom, LetIn, RunsKept, OwnerKept;
  }

  lemma FirstThenRunsKept(s: State, s0: State, s1: State, s': State, t: ThreadId, ids: seq<RunId>, fate: Fate)
    requires ids != [] && s0 == s.(threads := s0.threads) && LetIn(s0, s1, t, ids[0], fate)
    requires RunsKept(s1, s', ids[1..])
    ensures RunsKept(s, s', ids)
  {
    hide Meets, NoMoreRoom;
    assert ids == [ids[0]] + ids[1..];
  }

  lemma FirstThenOwnerKept(s: State, s0: State, s1: State, s': State, t: ThreadId, ids: seq<RunId>, fate: Fate)
    requires ids != [] && t in s.threads && t in s0.threads && s0.threads[t].live == s.threads[t].live
    requires LetIn(s0, s1, t, ids[0], fate) && OwnerKept(s1, s', t, ids[1..])
    ensures OwnerKept(s, s', t, ids)
  {
    hide Meets, NoMoreRoom;
    assert ids == [ids[0]] + ids[1..];
  }

  lemma RoomOn(s: State, s0: State, s1: State, s': State)
    requires s0 == s.(threads := s0.threads) && NoMoreRoom(s0, s1) && NoMoreRoom(s1, s')
    ensures NoMoreRoom(s, s')
  {
  }

  lemma SameNotes(runs: map<RunId, Run>, runs': map<RunId, Run>, ids: seq<RunId>)
    requires forall i :: 0 <= i < |ids| ==> ids[i] in runs && ids[i] in runs' && runs'[ids[i]] == runs[ids[i]]
    ensures Notes(runs', ids) == Notes(runs, ids)
  {
  }

  lemma OneMoreNote(runs: map<RunId, Run>, x: RunId, ids: seq<RunId>)
    requires x in runs && forall i :: 0 <= i < |ids| ==> ids[i] in runs
    ensures forall i :: 0 <= i < |[x] + ids| ==> ([x] + ids)[i] in runs
    ensures Notes(runs, [x] + ids) == [NoteOf(x, runs[x])] + Notes(runs, ids)
  {
  }

  lemma LeftByFirst(s: State, s0: State, s1: State, t: ThreadId, x: RunId, fate: Fate, ids: seq<RunId>)
    requires s0 == s.(threads := s0.threads) && LetIn(s0, s1, t, x, fate)
    requires forall i :: 0 <= i < |ids| ==> ids[i] in s.runs && ids[i] != x
    ensures forall i :: 0 <= i < |ids| ==> ids[i] in s1.runs && s1.runs[ids[i]] == s.runs[ids[i]]
  {
    hide Meets, NoMoreRoom;
  }

  lemma NotedByFirst(s0: State, s1: State, t: ThreadId, x: RunId, fate: Fate)
    requires LetIn(s0, s1, t, x, fate)
    ensures s1.offers == s0.offers + if fate.GetsOffer? then [NoteOf(x, s0.runs[x])] else []
  {
    hide Meets, NoMoreRoom;
  }

  lemma NotTheFirst(ids: seq<RunId>, some: seq<RunId>)
    requires ids != [] && Distinct(ids) && forall i :: 0 <= i < |some| ==> some[i] in ids[1..]
    ensures forall i :: 0 <= i < |some| ==> some[i] in ids && some[i] != ids[0]
  {
    assert ids == [ids[0]] + ids[1..] && ids[0] !in ids[1..];
  }

  ghost predicate AllTracked(runs: map<RunId, Run>, ids: seq<RunId>) {
    forall i :: 0 <= i < |ids| ==> ids[i] in runs
  }

  lemma FirstThenRestNoted(s: State, s0: State, s1: State, s': State, t: ThreadId, x: RunId, fate: Fate,
                           offered: seq<RunId>)
    requires s0 == s.(threads := s0.threads) && LetIn(s0, s1, t, x, fate)
    requires AllTracked(s.runs, offered) && AllTracked(s1.runs, offered) && x !in offered
    requires s'.offers == s1.offers + Notes(s1.runs, offered)
    ensures AllTracked(s.runs, if fate.GetsOffer? then [x] + offered else offered)
    ensures s'.offers == s.offers + Notes(s.runs, if fate.GetsOffer? then [x] + offered else offered)
  {
    LeftByFirst(s, s0, s1, t, x, fate, offered);
    NotedByFirst(s0, s1, t, x, fate);
    assert x in s.runs;
    hide LetIn, Notes;
    SameNotes(s.runs, s1.runs, offered);
    OneMoreNote(s.runs, x, offered);
    assert s.offers + [] == s.offers;
  }

  lemma LaterFate(s: State, s0: State, s1: State, s': State, t: ThreadId, x: RunId, fate: Fate, y: RunId,
                  offered: seq<RunId>, waiting: seq<RunId>)
    requires s0 == s.(threads := s0.threads) && LetIn(s0, s1, t, x, fate) && y != x && y in s.runs && y in s1.runs
    requires Meets(s1, s', y, FateIn(y, offered, waiting))
    ensures Meets(s, s', y, FateIn(y, if fate.GetsOffer? then [x] + offered else offered,
                                   if fate.Waits? then [x] + waiting else waiting))
  {
    LaterStanding(s, s0, s1, t, x, fate, y);
    LaterMeets(s, s1, s', y, FateIn(y, offered, waiting));
    hide LetIn, Meets;
  }

  lemma FirstFate(s: State, s0: State, s1: State, s': State, t: ThreadId, x: RunId, fate: Fate, later: seq<RunId>,
                  offered: seq<RunId>, waiting: seq<RunId>)
    requires s0 == s.(threads := s0.threads) && LetIn(s0, s1, t, x, fate) && RestKept(s1, s', t, later) && x !in later
    requires x in s.runs && x !in offered && x !in waiting
    ensures Meets(s, s', x, FateIn(x, if fate.GetsOffer? then [x] + offered else offered,
                                   if fate.Waits? then [x] + waiting else waiting))
  {
    FirstMeets(s, s0, s1, s', t, x, fate, later);
    hide LetIn, Meets, RestKept;
  }

  lemma FirstThenRestFates(s: State, s0: State, s1: State, s': State, t: ThreadId, ids: seq<RunId>, fate: Fate,
                           offered: seq<RunId>, waiting: seq<RunId>)
    requires ids != [] && Distinct(ids) && s0 == s.(threads := s0.threads)
    requires forall i :: 0 <= i < |ids| ==> ids[i] in s.runs
    requires LetIn(s0, s1, t, ids[0], fate) && FatesMet(s1, s', ids[1..], offered, waiting)
    requires RestKept(s1, s', t, ids[1..])
    ensures FatesMet(s, s', ids, if fate.GetsOffer? then [ids[0]] + offered else offered,
                     if fate.Waits? then [ids[0]] + waiting else waiting)
  {
    hide Meets, LetIn, RestKept;
    var x, later := ids[0], ids[1..];
    assert ids == [x] + later && x !in later;
    var offered' := if fate.GetsOffer? then [x] + offered else offered;
    var waiting' := if fate.Waits? then [x] + waiting else waiting;
    SomeOfIn(waiting, later, x);
    SomeOfIn(offered, later, x);
    FirstFate(s, s0, s1, s', t, x, fate, later, offered, waiting);
    forall i | 0 <= i < |ids| ensures Meets(s, s', ids[i], FateIn(ids[i], offered', waiting')) {
      if i > 0 {
        assert ids[i] == later[i - 1];
        assert Meets(s1, s', later[i - 1], FateIn(later[i - 1], offered, waiting));
        LaterFate(s, s0, s1, s', t, x, fate, ids[i], offered, waiting);
      }
    }
    hide FateIn;
    SomeOfMore(offered, later, x, fate.GetsOffer?);
    SomeOfMore(waiting, later, x, fate.Waits?);
  }

  lemma LaterStanding(s: State, s0: State, s1: State, t: ThreadId, x: RunId, fate: Fate, y: RunId)
    requires s0 == s.(threads := s0.threads) && LetIn(s0, s1, t, x, fate) && y != x && y in s.runs
    ensures y in s1.runs && s1.runs[y] == s.runs[y] && s1.serving == s.serving
    ensures forall k :: ProviderOf(s1.providers, k).connection == ProviderOf(s.providers, k).connection
  {
    hide Meets;
  }

  lemma SomeOfMore(part: seq<RunId>, ids: seq<RunId>, x: RunId, taken: bool)
    requires SomeOf(part, ids) && x !in ids && x !in part
    ensures SomeOf(if taken then [x] + part else part, [x] + ids)
  {
    assert ([x] + ids)[1..] == ids && ([x] + part)[1..] == part;
  }

  /** The first was let in, and then the rest: all of them were. */
  lemma FirstThenRest(s: State, s0: State, s1: State, s': State, t: ThreadId, ids: seq<RunId>, fate: Fate,
                      offered: seq<RunId>, waiting: seq<RunId>)
    requires ids != [] && Distinct(ids) && s0 == s.(threads := s0.threads) && t in s.threads && t in s0.threads
    requires s0.threads[t].live == s.threads[t].live && forall i :: 0 <= i < |ids| ==> ids[i] in s.runs
    requires LetIn(s0, s1, t, ids[0], fate) && AllLetIn(s1, s', t, ids[1..], offered, waiting)
    ensures AllLetIn(s, s', t, ids, if fate.GetsOffer? then [ids[0]] + offered else offered,
                     if fate.Waits? then [ids[0]] + waiting else waiting)
  {
    FirstThenRestKept(s, s0, s1, s', t, ids, fate);
    FirstThenRestFates(s, s0, s1, s', t, ids, fate, offered, waiting);
    NotTheFirst(ids, offered);
    assert AllTracked(s1.runs, offered) by { assert forall i :: 0 <= i < |offered| ==> offered[i] in ids[1..]; }
    hide LetIn, RestKept, Distinct, FatesMet;
    assert AllTracked(s.runs, offered);
    FirstThenRestNoted(s, s0, s1, s', t, ids[0], fate, offered);
  }

  lemma {:induction false} SomeOfIn(part: seq<RunId>, ids: seq<RunId>, x: RunId)
    requires SomeOf(part, ids) && x !in ids
    ensures x !in part
    decreases |ids|
  {
    if part != [] {
      if ids[0] == part[0] { SomeOfIn(part[1..], ids[1..], x); } else { SomeOfIn(part, ids[1..], x); }
    }
  }

  lemma FirstMeets(s: State, s0: State, s1: State, s': State, t: ThreadId, x: RunId, fate: Fate, later: seq<RunId>)
    requires s0 == s.(threads := s0.threads) && x in s.runs && Meets(s0, s1, x, fate) && NoMoreRoom(s1, s')
    requires x !in later && forall q :: q in s1.runs && q !in later ==> q in s'.runs && s'.runs[q] == s1.runs[q]
    requires forall q :: q in s1.done ==> q in s'.done && s'.done[q] == s1.done[q] && q !in s'.runs
    ensures Meets(s, s', x, fate)
  {
    RoomOnlyShrinks(s1, s', s.runs[x].agent);
  }

  lemma LaterMeets(s: State, s1: State, s': State, x: RunId, fate: Fate)
    requires x in s.runs && x in s1.runs && s1.runs[x] == s.runs[x] && s1.serving == s.serving
    requires forall k :: ProviderOf(s1.providers, k).connection == ProviderOf(s.providers, k).connection
    requires Meets(s1, s', x, fate)
    ensures Meets(s, s', x, fate)
  {
    hide OverWith;
  }

  lemma NobodyToLetIn(s: State, t: ThreadId, h: RunId, front: seq<RunId>, rest: seq<RunId>)
    requires t in s.threads && QueueIs(s.threads[t].queue, h, front, rest) && s.runs.Keys !! s.done.Keys
    ensures AllLetIn(s, s, t, [], [], []) && Queue(s, t) == [h] + (Backwards([]) + front) + RemoveAll(rest, [])
  {
    SameRoom(s, s);
    hide NoMoreRoom;
    assert Backwards([]) + front == front && s.offers + Notes(s.runs, []) == s.offers;
  }

  lemma {:induction false} JoinEachLetsIn(s: State, t: ThreadId, h: RunId, front: seq<RunId>, rest: seq<RunId>,
                                          ids: seq<RunId>)
      returns (offered: seq<RunId>, waiting: seq<RunId>)
    requires t in s.threads && QueueIs(s.threads[t].queue, h, front, rest) && Distinct(ids)
    requires s.runs.Keys !! s.done.Keys
    requires AllIn(s, ids, rest)
    ensures AllLetIn(s, JoinEach(s, t, ids), t, ids, offered, waiting)
    ensures Queue(JoinEach(s, t, ids), t) == [h] + (Backwards(waiting) + front) + RemoveAll(rest, ids)
    decreases |ids|
  {
    hide LetIn, AllLetIn, QueueIs, FateOf, OfferTo, Distinct, AllIn;
    if ids == [] {
      offered, waiting := [], [];
      NobodyToLetIn(s, t, h, front, rest);
    } else {
      var x, s1 := ids[0], JoinOne(s, t, ids[0]);
      var fate := JoinOneLetsIn(s, t, h, front, rest, ids);
      var front1 := if fate.Waits? then [x] + front else front;
      var offered1, waiting1 := JoinEachLetsIn(s1, t, h, front1, RemoveFirst(rest, x), ids[1..]);
      var s0 := WithQueue(s, t, RemoveFirst(s.threads[t].queue, x));
      AllInRuns(s, ids, rest);
      FirstThenRest(s, s0, s1, JoinEach(s, t, ids), t, ids, fate, offered1, waiting1);
      offered := if fate.GetsOffer? then [x] + offered1 else offered1;
      waiting := if fate.Waits? then [x] + waiting1 else waiting1;
      assert ([x] + waiting1)[1..] == waiting1;
      assert Backwards(waiting1) + ([x] + front) == (Backwards(waiting1) + [x]) + front;
    }
  }

  /** All of `ids` are waiting in `rest`. */
  ghost predicate AllIn(s: State, ids: seq<RunId>, rest: seq<RunId>) {
    forall i :: 0 <= i < |ids| ==> ids[i] in rest && ids[i] in s.runs && Idle(s.runs[ids[i]])
  }

  lemma AllInRuns(s: State, ids: seq<RunId>, rest: seq<RunId>)
    requires AllIn(s, ids, rest)
    ensures forall i :: 0 <= i < |ids| ==> ids[i] in s.runs
  {
  }

  lemma JoinOneLetsIn(s: State, t: ThreadId, h: RunId, front: seq<RunId>, rest: seq<RunId>, ids: seq<RunId>)
      returns (fate: Fate)
    requires t in s.threads && QueueIs(s.threads[t].queue, h, front, rest) && Distinct(ids)
    requires s.runs.Keys !! s.done.Keys
    requires ids != [] && AllIn(s, ids, rest)
    ensures ids[0] in s.runs
    ensures var s1, s0 := JoinOne(s, t, ids[0]), WithQueue(s, t, RemoveFirst(s.threads[t].queue, ids[0]));
            && LetIn(s0, s1, t, ids[0], fate) && t in s1.threads && s1.runs.Keys !! s1.done.Keys && Distinct(ids[1..])
            && QueueIs(s1.threads[t].queue, h, if fate.Waits? then [ids[0]] + front else front,
                       RemoveFirst(rest, ids[0]))
            && AllIn(s1, ids[1..], RemoveFirst(rest, ids[0]))
  {
    var x := ids[0];
    assert ids[0] in rest && x in s.runs && Idle(s.runs[x]);
    CutOne(s.threads[t].queue, h, front, rest, x);
    var s0 := WithQueue(s, t, RemoveFirst(s.threads[t].queue, x));
    hide LetIn, QueueIs, OfferTo, FateOf;
    OfferLetsIn(s0, t, x);
    fate := FateOf(s0, x);
    AfterFirst(s, s0, JoinOne(s, t, x), t, ids, fate, h, front, rest);
  }

  /** What is left to let in after the first. */
  lemma AfterFirst(s: State, s0: State, s1: State, t: ThreadId, ids: seq<RunId>, fate: Fate, h: RunId,
                   front: seq<RunId>,
                   rest: seq<RunId>)
    requires ids != [] && Distinct(ids) && t in s.threads && t in s0.threads && s0.runs == s.runs && AllIn(s, ids, rest)
    requires LetIn(s0, s1, t, ids[0], fate)
    requires QueueIs(s0.threads[t].queue, h, front, RemoveFirst(rest, ids[0]))
    requires QueueIs(InsertedSecond(s0.threads[t].queue, ids[0]), h, [ids[0]] + front, RemoveFirst(rest, ids[0]))
    requires forall y :: y in rest && y != ids[0] ==> y in RemoveFirst(rest, ids[0])
    ensures t in s1.threads && s1.runs.Keys !! s1.done.Keys && Distinct(ids[1..])
    ensures QueueIs(s1.threads[t].queue, h, if fate.Waits? then [ids[0]] + front else front, RemoveFirst(rest, ids[0]))
    ensures AllIn(s1, ids[1..], RemoveFirst(rest, ids[0]))
  {
    hide QueueIs, Meets, NoMoreRoom;
    forall i | 0 <= i < |ids[1..]|
      ensures ids[1..][i] in RemoveFirst(rest, ids[0]) && ids[1..][i] in s1.runs && Idle(s1.runs[ids[1..][i]])
    {
      assert ids[1..][i] == ids[i + 1] && ids[i + 1] != ids[0];
    }
  }

  // ---- a verdict that takes the run ----------------------------------------------------------------

  /** The run as its claim leaves it. */
  function TakenRun(run: Run, r: RunId, k: Key): Run {
    var heard := run.heard + [Answered(r, k, Accepted)];
    run.(verdictOpen := false, clockDue := false, claimedBy := Some(k), claimedAt := |heard|, heard := heard,
         record := run.record + [Did(Claim, Some(k), run.cancelRequested)])
  }

  /** The connection the offer went to still serves the agent. */
  predicate StillServed(s: State, run: Run) {
    Serving(s, run.agent) == run.offeredConn
  }

  /** A verdict that takes a run under offer. */
  predicate IsAcceptance(s: State, t: ThreadId, r: RunId, k: Key) {
    IsRead(s, t, r, Answered(r, k, Accepted)) && s.runs[r].verdictOpen && s.runs[r].offeredTo == Some(k)
  }

  /** The state with the claim written, before anything follows from it. */
  function ClaimWritten(s: State, t: ThreadId, r: RunId, k: Key): State
    requires IsAcceptance(s, t, r, k)
  {
    s.(runs := s.runs[r := TakenRun(s.runs[r], r, k)],
       threads := s.threads[t := s.threads[t].(inbox := s.threads[t].inbox[1..])])
  }

  lemma ClaimIs(s: State, t: ThreadId, r: RunId, k: Key)
    requires IsAcceptance(s, t, r, k) && Live(s, t, r)
    ensures var s1 := Take(s, t);
            && Live(s1, t, r) && s1.runs[r].verdictOpen && s1.runs[r].offeredTo == Some(k)
            && var s2 := CloseVerdict(s1, r); SetRun(s2, r, Claimed(s2.runs[r], k)) == ClaimWritten(s, t, r, k)
  {
    TakeForm(s, t);
    hide Take;
  }

  /** What follows from the claim. */
  function Consequence(s: State, t: ThreadId, r: RunId): State
    requires t in s.threads && r in s.runs
  {
    if Serving(s, s.runs[r].agent) != s.runs[r].offeredConn then Post(s, r, Trusted(r, Fail(ProviderLeftHoldingIt, "")))
    else
      var s' := if s.runs[r].isInterjection then s else ReleaseInterjections(s, t, r);
      if s.runs[r].cancelRequested then Log(s', r, RequestCancel) else s'
  }

  lemma AcceptanceMade(s: State, t: ThreadId, r: RunId, k: Key)
    requires IsAcceptance(s, t, r, k) && Live(s, t, r)
    ensures OnMessage(Take(s, t), t, Answered(r, k, Accepted)) == Consequence(ClaimWritten(s, t, r, k), t, r)
  {
    ClaimIs(s, t, r, k);
    hide Take, ReleaseInterjections, Post, Log, ClaimWritten;
  }

  /** The provider left before its acceptance was read: the claim stands, and its end is posted. */
  lemma LateAcceptanceIsRead(s: State, t: ThreadId, r: RunId, k: Key)
    requires Reachable(s) && Enabled(s, DoOwner(t)) && IsAcceptance(s, t, r, k) && !StillServed(s, s.runs[r])
    ensures var s' := Apply(s, DoOwner(t));
            && s'.ledger == s.ledger && StandsAt(s', r, TakenRun(s.runs[r], r, k))
            && t in s'.threads && Trusted(r, Fail(ProviderLeftHoldingIt, "")) in s'.threads[t].inbox
  {
    StepIs(s, t);
    ReadIs(s, t, r, Answered(r, k, Accepted));
    AcceptanceMade(s, t, r, k);
    LeavingPosted(s, t, r, k);
    var s2 := OnMessage(Take(s, t), t, Answered(r, k, Accepted));
    hide OnMessage, Take, Enabled, Apply, RunShape, Consequence, ClaimWritten, TakenRun;
    TakenIsNotIdle(s.runs[r], r, k);
    PostedStays(s2, Apply(s, DoOwner(t)), t, Trusted(r, Fail(ProviderLeftHoldingIt, "")));
    hide Settled, StandsAt;
    Carry(s2, Apply(s, DoOwner(t)), t, r);
  }

  lemma TakenIsNotIdle(run: Run, r: RunId, k: Key)
    ensures !Idle(TakenRun(run, r, k))
  {
  }

  lemma PostedStays(s: State, s': State, t: ThreadId, m: Message)
    requires Settled(s, s', t) && t in s.threads && m in s.threads[t].inbox
    ensures t in s'.threads && m in s'.threads[t].inbox
  {
  }

  lemma LeavingPosted(s: State, t: ThreadId, r: RunId, k: Key)
    requires IsAcceptance(s, t, r, k) && !StillServed(s, s.runs[r])
    ensures var s' := Consequence(ClaimWritten(s, t, r, k), t, r);
            && s'.ledger == s.ledger && StandsAt(s', r, TakenRun(s.runs[r], r, k))
            && t in s'.threads && Trusted(r, Fail(ProviderLeftHoldingIt, "")) in s'.threads[t].inbox
  {
  }

  // ---- the runs it lets in ---------------------------------------------------------------------------

  lemma {:induction false} JoiningIsJoiners(runs: map<RunId, Run>, runs': map<RunId, Run>, q: seq<RunId>, head: RunId)
    requires runs'.Keys == runs.Keys && forall x :: x in runs ==> runs'[x].addressed == runs[x].addressed
    ensures Joining(runs', q, head) == Joiners(runs, q, head)
  {
    if q != [] { JoiningIsJoiners(runs, runs', q[1..], head); }
  }

  lemma {:induction false} JoinersAre(runs: map<RunId, Run>, q: seq<RunId>, head: RunId)
    requires Distinct(q)
    ensures Distinct(Joiners(runs, q, head))
    ensures forall x :: x in Joiners(runs, q, head) <==> x in q && x in runs && runs[x].addressed == Some(head)
  {
    if q != [] {
      assert q == [q[0]] + q[1..] && q[0] !in q[1..];
      assert Distinct(q[1..]);
      JoinersAre(runs, q[1..], head);
    }
  }

  lemma {:induction false} RemoveAllBehind(x: RunId, q: seq<RunId>, ids: seq<RunId>)
    requires x !in ids
    ensures RemoveAll([x] + q, ids) == [x] + RemoveAll(q, ids)
    decreases |ids|
  {
    if ids != [] {
      assert ([x] + q)[0] == x && ([x] + q)[1..] == q;
      RemoveAllBehind(x, RemoveFirst(q, ids[0]), ids[1..]);
    }
  }

  /** Without those that asked to join, the rest of the queue stands as it stood. */
  lemma {:induction false} OthersRemain(runs: map<RunId, Run>, q: seq<RunId>, head: RunId)
    requires Distinct(q)
    ensures RemoveAll(q, Joiners(runs, q, head)) == Others(runs, q, head)
  {
    if q != [] {
      var x, rest := q[0], q[1..];
      assert q == [x] + rest && x !in rest;
      assert Distinct(rest);
      OthersRemain(runs, rest, head);
      JoinersAre(runs, rest, head);
      if x in runs && runs[x].addressed == Some(head) {
        assert ([x] + Joiners(runs, rest, head))[1..] == Joiners(runs, rest, head);
      } else {
        RemoveAllBehind(x, rest, Joiners(runs, rest, head));
        assert [] + Joiners(runs, rest, head) == Joiners(runs, rest, head);
      }
    }
  }

  /** With a turn taken and somebody alive, there is nothing to advance and no reason to leave. */
  lemma QuietOwner(s: State, t: ThreadId)
    requires t in s.threads && s.threads[t].queue != [] && s.threads[t].queue[0] in s.runs
    requires !Idle(s.runs[s.threads[t].queue[0]]) && s.threads[t].live != {}
    ensures Retire(Advance(s, t), t) == s
  {
    assert s.threads[t := s.threads[t].(queue := s.threads[t].queue)] == s.threads;
  }

  /** What the claim's consequence is, when the run is a turn and its provider is there. */
  lemma ReleaseIs(s: State, t: ThreadId, r: RunId)
    requires t in s.threads && r in s.runs && !s.runs[r].isInterjection && s.threads[t].queue != []
    requires Serving(s, s.runs[r].agent) == s.runs[r].offeredConn
    ensures var joined := JoinEach(s, t, Joining(s.runs, s.threads[t].queue[1..], r));
            Consequence(s, t, r) == if s.runs[r].cancelRequested then Log(joined, r, RequestCancel) else joined
  {
    hide JoinEach, Joining, Log, Serving;
  }

  /** What asked to join the head of a queue is all waiting behind it. */
  lemma TailApart(q: seq<RunId>, r: RunId, tail: seq<RunId>)
    requires q == [r] + tail && Distinct(q)
    ensures Distinct(tail) && r !in tail && QueueIs(q, r, [], tail) && q[1..] == tail
  {
    forall i, j | 0 <= i < j < |tail| ensures tail[i] != tail[j] { assert q[i + 1] != q[j + 1]; }
    forall i | 0 <= i < |tail| ensures tail[i] != r { assert q[0] != q[i + 1]; }
    assert q == [r] + [] + tail;
  }

  lemma BehindWaits(s: State, t: ThreadId, r: RunId, tail: seq<RunId>, x: RunId)
    requires TailWaits(s, t) && s.threads[t].queue == [r] + tail && x in tail && x in s.runs
    ensures Idle(s.runs[x])
  {
    var j :| 0 <= j < |tail| && tail[j] == x;
    assert s.threads[t].queue[j + 1] == x;
  }

  lemma JoinersWaitBehind(s: State, t: ThreadId, r: RunId, tail: seq<RunId>)
    requires TailWaits(s, t) && s.threads[t].queue == [r] + tail && Distinct(tail) && r !in tail
    ensures Distinct(Joiners(s.runs, tail, r)) && AllIn(s, Joiners(s.runs, tail, r), tail)
    ensures r !in Joiners(s.runs, tail, r)
  {
    JoinersAre(s.runs, tail, r);
    var ids := Joiners(s.runs, tail, r);
    hide TailWaits, Joiners, Distinct;
    forall i | 0 <= i < |ids| ensures ids[i] in tail && ids[i] in s.runs && Idle(s.runs[ids[i]]) {
      assert ids[i] in ids;
      BehindWaits(s, t, r, tail, ids[i]);
    }
  }

  /** The cancel, if it was asked for, recorded on the run that was taken. */
  function AfterClaim(run: Run): Run {
    if run.cancelRequested then Logged(run, RequestCancel) else run
  }

  ghost predicate Released(s: State, s': State, t: ThreadId, r: RunId, tail: seq<RunId>, offered: seq<RunId>,
                           waiting: seq<RunId>) {
    var joiners := Joiners(s.runs, tail, r);
    && FatesMet(s, s', joiners, offered, waiting)
    && s'.offers == s.offers + Notes(s.runs, offered)
    && Queue(s', t) == [r] + Backwards(waiting) + Others(s.runs, tail, r)
    && (forall x :: x in s.runs && x != r && x !in joiners ==> StandsAt(s', x, s.runs[x]))
  }

  /** Letting them in, from the state in which the claim is written. */
  lemma ReleaseLetsIn(s: State, t: ThreadId, r: RunId, tail: seq<RunId>)
      returns (offered: seq<RunId>, waiting: seq<RunId>)
    requires TailWaits(s, t) && s.threads[t].queue == [r] + tail && Distinct(s.threads[t].queue) && r in s.runs
    requires !s.runs[r].isInterjection && !Idle(s.runs[r]) && s.runs.Keys !! s.done.Keys && r in s.threads[t].live
    requires Serving(s, s.runs[r].agent) == s.runs[r].offeredConn
    ensures var s' := Consequence(s, t, r);
            && Released(s, s', t, r, tail, offered, waiting) && s'.ledger == s.ledger
            && StandsAt(s', r, AfterClaim(s.runs[r])) && t in s'.threads && r in s'.threads[t].live
  {
    hide Distinct, QueueIs, Joiners, Joining, Others, Consequence, RemoveAll, AllIn, Serving, JoinEach, AllLetIn,
        FatesMet;
    hide AfterClaim, Idle;
    TailApart(s.threads[t].queue, r, tail);
    JoinersWaitBehind(s, t, r, tail);
    hide TailWaits;
    JoiningIsJoiners(s.runs, s.runs, tail, r);
    OthersRemain(s.runs, tail, r);
    ReleaseIs(s, t, r);
    var ids := Joiners(s.runs, tail, r);
    offered, waiting := JoinEachLetsIn(s, t, r, [], tail, ids);
    assert [r] + (Backwards(waiting) + []) + Others(s.runs, tail, r)
        == [r] + Backwards(waiting) + Others(s.runs, tail, r);
    LoggedAfter(s, JoinEach(s, t, ids), t, r, ids, offered, waiting);
  }

  lemma FatesStill(s: State, a: State, b: State, r: RunId, ids: seq<RunId>, offered: seq<RunId>, waiting: seq<RunId>)
    requires FatesMet(s, a, ids, offered, waiting) && r !in ids && r in a.runs
    requires b == a.(runs := b.runs) && b.runs.Keys == a.runs.Keys
    requires forall y :: y in a.runs && y != r ==> b.runs[y] == a.runs[y]
    ensures FatesMet(s, b, ids, offered, waiting)
  {
    forall i | 0 <= i < |ids| ensures Meets(s, b, ids[i], FateIn(ids[i], offered, waiting)) {
      assert Meets(s, a, ids[i], FateIn(ids[i], offered, waiting));
      assert ids[i] != r;
      MeetsStill(s, a, b, r, ids[i], FateIn(ids[i], offered, waiting));
    }
    hide Meets, FateIn, SomeOf;
  }

  lemma KeptIs(s: State, joined: State, t: ThreadId, r: RunId, ids: seq<RunId>)
    requires RestKept(s, joined, t, ids) && r in s.runs && r !in ids && r in s.threads[t].live
    ensures r in joined.runs && joined.runs[r] == s.runs[r] && joined.ledger == s.ledger
    ensures t in joined.threads && r in joined.threads[t].live
    ensures forall x :: x in s.runs && x !in ids ==> x in joined.runs && joined.runs[x] == s.runs[x]
  {
  }

  lemma LoggedAfter(s: State, joined: State, t: ThreadId, r: RunId, ids: seq<RunId>, offered: seq<RunId>,
                    waiting: seq<RunId>)
    requires AllLetIn(s, joined, t, ids, offered, waiting) && r in s.runs && r !in ids && t in s.threads
    requires r in s.threads[t].live
    ensures r in joined.runs
    ensures var s' := if s.runs[r].cancelRequested then Log(joined, r, RequestCancel) else joined;
            && FatesMet(s, s', ids, offered, waiting) && s'.offers == s.offers + Notes(s.runs, offered)
            && Queue(s', t) == Queue(joined, t) && s'.ledger == s.ledger
            && (forall x :: x in s.runs && x != r && x !in ids ==> StandsAt(s', x, s.runs[x]))
            && StandsAt(s', r, AfterClaim(s.runs[r])) && t in s'.threads && r in s'.threads[t].live
  {
    KeptIs(s, joined, t, r, ids);
    assert FatesMet(s, joined, ids, offered, waiting);
    hide RestKept, FatesMet, AllLetIn, Notes, Logged;
    var s' := if s.runs[r].cancelRequested then Log(joined, r, RequestCancel) else joined;
    FatesStill(s, joined, s', r, ids, offered, waiting);
  }

  lemma MeetsStill(s: State, a: State, b: State, r: RunId, x: RunId, fate: Fate)
    requires x in s.runs && Meets(s, a, x, fate) && x != r && r in a.runs
    requires b == a.(runs := b.runs) && b.runs.Keys == a.runs.Keys
    requires forall y :: y in a.runs && y != r ==> b.runs[y] == a.runs[y]
    ensures Meets(s, b, x, fate)
  {
  }

  // ---- the step in which a run is taken ----------------------------------------------------------------

  /** What holds where a taken turn's claim is written. */
  lemma HeadsTheQueue(s: State, t: ThreadId, r: RunId)
    requires Inv(s, {}, Nobody) && Live(s, t, r) && s.runs[r].thread == t && !Idle(s.runs[r])
    requires !s.runs[r].isInterjection
    ensures s.threads[t].queue != [] && s.threads[t].queue[0] == r
  {
    hide Inv, RunOK, RunShape;
    InvRun(s, {}, Nobody, r);
  }

  lemma TurnHeadsQueue(s: State, t: ThreadId, r: RunId, m: Message)
    requires Inv(s, {}, Nobody) && IsRead(s, t, r, m) && !m.Queued? && !s.runs[r].isInterjection && !Idle(s.runs[r])
    ensures Live(s, t, r) && s.threads[t].queue != [] && s.threads[t].queue[0] == r
    ensures Distinct(s.threads[t].queue) && TailWaits(s, t) && s.runs.Keys !! s.done.Keys
  {
    hide Inv, RunOK, RunShape, ThreadShape, Distinct, TailWaits, MessageOK;
    InvBooks(s, {}, Nobody);
    InvThread(s, {}, Nobody, t);
    AboutLive(s, t, r);
    HeadsTheQueue(s, t, r);
    TailWaitsOf(s, t);
  }

  lemma ClaimStands(s: State, t: ThreadId, r: RunId, k: Key) returns (tail: seq<RunId>)
    requires Reachable(s) && IsAcceptance(s, t, r, k) && !s.runs[r].isInterjection
    ensures s.threads[t].queue == [r] + tail && Live(s, t, r)
    ensures var s1 := ClaimWritten(s, t, r, k);
            && TailWaits(s1, t) && s1.threads[t].queue == [r] + tail && Distinct(s1.threads[t].queue)
            && s1.runs.Keys !! s1.done.Keys && r in s1.threads[t].live
  {
    hide Inv, Reachable, Distinct, TailWaits, ClaimWritten;
    ReachableHolds(s);
    TurnHeadsQueue(s, t, r, Answered(r, k, Accepted));
    ClaimTail(s, t, r, k);
    tail := s.threads[t].queue[1..];
    assert s.threads[t].queue == [r] + tail;
  }

  lemma ClaimTail(s: State, t: ThreadId, r: RunId, k: Key)
    requires IsAcceptance(s, t, r, k) && TailWaits(s, t) && Distinct(s.threads[t].queue) && Live(s, t, r)
    requires s.threads[t].queue != [] && s.threads[t].queue[0] == r && s.runs.Keys !! s.done.Keys
    ensures var s1 := ClaimWritten(s, t, r, k);
            && TailWaits(s1, t) && s1.threads[t].queue == s.threads[t].queue
            && s1.runs.Keys !! s1.done.Keys && r in s1.threads[t].live
  {
    var s1, q := ClaimWritten(s, t, r, k), s.threads[t].queue;
    forall i | 0 < i < |q| && q[i] in s1.runs ensures Idle(s1.runs[q[i]]) { assert q[0] != q[i]; }
  }

  lemma SameBefore(s: State, s1: State, s': State, r: RunId, run: Run, tail: seq<RunId>, t: ThreadId,
                   offered: seq<RunId>, waiting: seq<RunId>)
    requires r in s.runs && s1 == s.(runs := s.runs[r := run], threads := s1.threads)
    requires run.addressed == s.runs[r].addressed
    requires Distinct(tail) && r !in tail && Released(s1, s', t, r, tail, offered, waiting)
    ensures Released(s, s', t, r, tail, offered, waiting)
  {
    JoinersAre(s.runs, tail, r);
    hide Joiners, Joining, Others, Distinct, FatesMet, Notes;
    JoiningIsJoiners(s.runs, s1.runs, tail, r);
    JoiningIsJoiners(s1.runs, s1.runs, tail, r);
    OthersAlike(s.runs, s1.runs, tail, r);
    var ids := Joiners(s.runs, tail, r);
    FatesBefore(s, s1, s', r, ids, offered, waiting);
    SameNotes(s.runs, s1.runs, offered);
    forall x | x in s.runs && x != r && x !in ids ensures StandsAt(s', x, s.runs[x]) {
      assert s1.runs[x] == s.runs[x];
    }
  }

  lemma FatesBefore(s: State, s1: State, s': State, r: RunId, ids: seq<RunId>, offered: seq<RunId>, waiting: seq<RunId>)
    requires FatesMet(s1, s', ids, offered, waiting) && r !in ids && r in s.runs
    requires s1.serving == s.serving && s1.providers == s.providers && s1.runs.Keys == s.runs.Keys
    requires forall x :: x in s.runs && x != r ==> s1.runs[x] == s.runs[x]
    ensures FatesMet(s, s', ids, offered, waiting)
    ensures forall i :: 0 <= i < |offered| ==> offered[i] in s.runs && s1.runs[offered[i]] == s.runs[offered[i]]
  {
    forall i | 0 <= i < |ids|
      ensures ids[i] in s.runs && Meets(s, s', ids[i], FateIn(ids[i], offered, waiting))
    {
      assert ids[i] in ids && ids[i] != r;
      assert Meets(s1, s', ids[i], FateIn(ids[i], offered, waiting));
      LaterMeets(s, s1, s', ids[i], FateIn(ids[i], offered, waiting));
    }
    forall i | 0 <= i < |offered| ensures offered[i] in s.runs && offered[i] != r { assert offered[i] in ids; }
    hide Meets, FateIn, SomeOf;
  }

  lemma {:induction false} OthersAlike(runs: map<RunId, Run>, runs': map<RunId, Run>, q: seq<RunId>, head: RunId)
    requires runs'.Keys == runs.Keys && forall x :: x in runs ==> runs'[x].addressed == runs[x].addressed
    ensures Others(runs', q, head) == Others(runs, q, head)
  {
    if q != [] { OthersAlike(runs, runs', q[1..], head); }
  }

  /** A turn is taken by a provider that is still there: the claim is on its record, and the
      cancel if one was asked for; and every queued run that asked to join it, in the order
      they stood, is now offered beside it, or over for its input, or found no room and
      stands right behind it. The rest of the queue keeps its order, and no other run is touched. */
  lemma JoinersAreReleased(s: State, t: ThreadId, r: RunId, k: Key)
      returns (tail: seq<RunId>, offered: seq<RunId>, waiting: seq<RunId>)
    requires Reachable(s) && Enabled(s, DoOwner(t)) && IsAcceptance(s, t, r, k)
    requires StillServed(s, s.runs[r]) && !s.runs[r].isInterjection
    ensures s.threads[t].queue == [r] + tail
    ensures var s' := Apply(s, DoOwner(t));
            && Released(s, s', t, r, tail, offered, waiting) && s'.ledger == s.ledger
            && StandsAt(s', r, AfterClaim(TakenRun(s.runs[r], r, k)))
  {
    tail := ClaimStands(s, t, r, k);
    OwnerApplies(s, t);
    OwnerStepIs(s, t);
    AcceptanceMade(s, t, r, k);
    TailApart(s.threads[t].queue, r, tail);
    var s1 := ClaimWritten(s, t, r, k);
    ServedAtClaim(s, t, r, k);
    hide Apply, Enabled, Take, OnMessage, Reachable, TailWaits, Live, Consequence, AfterClaim, TakenRun, Released;
    offered, waiting := ReleaseLetsIn(s1, t, r, tail);
    var s2 := Consequence(s1, t, r);
    SameBefore(s, s1, s2, r, TakenRun(s.runs[r], r, k), tail, t, offered, waiting);
    NothingLeft(s2, t, r, tail, s1, offered, waiting, AfterClaim(s1.runs[r]));
  }

  /** A joining run is taken by a provider that is still there: the claim is on its record,
      and the cancel if one was asked for, and that is all. */
  lemma JoinerIsTaken(s: State, t: ThreadId, r: RunId, k: Key)
    requires Reachable(s) && Enabled(s, DoOwner(t)) && IsAcceptance(s, t, r, k)
    requires StillServed(s, s.runs[r]) && s.runs[r].isInterjection
    ensures var s' := Apply(s, DoOwner(t));
            s'.ledger == s.ledger && StandsAt(s', r, AfterClaim(TakenRun(s.runs[r], r, k)))
  {
    StepIs(s, t);
    ReadIs(s, t, r, Answered(r, k, Accepted));
    AcceptanceMade(s, t, r, k);
    JoinerClaimed(s, t, r, k);
    var s2 := OnMessage(Take(s, t), t, Answered(r, k, Accepted));
    hide OnMessage, Take, Enabled, Apply, RunShape, Consequence, ClaimWritten, TakenRun;
    TakenIsNotIdle(s.runs[r], r, k);
    hide Settled, StandsAt;
    Carry(s2, Apply(s, DoOwner(t)), t, r);
  }

  lemma JoinerClaimed(s: State, t: ThreadId, r: RunId, k: Key)
    requires IsAcceptance(s, t, r, k) && StillServed(s, s.runs[r]) && s.runs[r].isInterjection
    ensures var s' := Consequence(ClaimWritten(s, t, r, k), t, r);
            s'.ledger == s.ledger && StandsAt(s', r, AfterClaim(TakenRun(s.runs[r], r, k)))
  {
  }

  lemma ServedAtClaim(s: State, t: ThreadId, r: RunId, k: Key)
    requires IsAcceptance(s, t, r, k)
    ensures var s1 := ClaimWritten(s, t, r, k);
            && r in s1.runs && s1.runs[r] == TakenRun(s.runs[r], r, k) && !Idle(s1.runs[r])
            && s1.runs[r].isInterjection == s.runs[r].isInterjection && s1.runs[r].addressed == s.runs[r].addressed
            && (StillServed(s, s.runs[r]) <==> Serving(s1, s1.runs[r].agent) == s1.runs[r].offeredConn)
            && s1 == s.(runs := s.runs[r := TakenRun(s.runs[r], r, k)], threads := s1.threads) && s1.ledger == s.ledger
  {
  }

  lemma NothingLeft(s: State, t: ThreadId, r: RunId, tail: seq<RunId>, before: State, offered: seq<RunId>,
                    waiting: seq<RunId>, run: Run)
    requires Released(before, s, t, r, tail, offered, waiting) && StandsAt(s, r, run) && !Idle(run)
    requires t in s.threads && r in s.threads[t].live
    ensures Retire(Advance(s, t), t) == s
  {
    assert s.threads[t].queue[0] == r;
    QuietOwner(s, t);
  }

  // ---- arriving after the run it joins was taken ------------------------------------------------------

  /** A run read off the inbox for the first time. */
  lemma NewcomerStands(s: State, t: ThreadId, r: RunId)
    requires Reachable(s) && IsRead(s, t, r, Queued(r))
    ensures Idle(s.runs[r]) && r !in s.threads[t].queue && r !in s.threads[t].live && s.runs.Keys !! s.done.Keys
    ensures forall q :: q in s.threads[t].queue ==> q in s.threads[t].live
  {
    ReachableHolds(s);
    hide Inv, Reachable, RunOK, RunShape;
    InvBooks(s, {}, Nobody);
    InvThread(s, {}, Nobody, t);
    InvRun(s, {}, Nobody, r);
    assert MessageOK(s.runs, s.threads[t], t, s.threads[t].inbox[0]);
  }

  /** The state with the newcomer taken in. */
  function TakenIn(s: State, t: ThreadId, r: RunId): State
    requires t in s.threads && s.threads[t].inbox != []
  {
    var h := s.threads[t];
    s.(threads := s.threads[t := h.(inbox := h.inbox[1..], live := h.live + {r})])
  }

  lemma PoppedTakesIn(s: State, t: ThreadId, r: RunId)
    requires t in s.threads && s.threads[t].inbox != []
    ensures var p := Popped(s, t);
            && p.threads[t].queue == s.threads[t].queue && p.runs == s.runs
            && p.(threads := p.threads[t := p.threads[t].(live := p.threads[t].live + {r})]) == TakenIn(s, t, r)
  {
    var p, h := Popped(s, t), s.threads[t];
    assert p.threads[t].(live := p.threads[t].live + {r}) == h.(inbox := h.inbox[1..], live := h.live + {r});
  }

  lemma QueuedMade(s: State, t: ThreadId, r: RunId)
    requires IsRead(s, t, r, Queued(r))
    ensures var s1, q := TakenIn(s, t, r), s.threads[t].queue;
            OnMessage(Take(s, t), t, Queued(r)) ==
              if q != [] && q[0] in s.runs && s.runs[q[0]].claimedBy.Some? && s.runs[r].addressed == Some(q[0])
              then OfferTo(s1, t, r, true) else s1.(threads := s1.threads[t := s1.threads[t].(queue := q + [r])])
  {
    TakeForm(s, t);
    PoppedTakesIn(s, t, r);
    assert Take(s, t) == Popped(s, t);
    assert t in Popped(s, t).threads;
    hide OfferTo, Take, Popped, TakenIn;
  }

  /** A run that comes in addressed to the head of its thread, when that is already taken, is
      offered beside it at once, or over for its input, or finds no room and stands right
      behind it; no other run is touched. */
  lemma LateJoinerIsLetIn(s: State, t: ThreadId, r: RunId) returns (fate: Fate)
    requires Reachable(s) && Enabled(s, DoOwner(t)) && IsRead(s, t, r, Queued(r)) && s.threads[t].queue != []
    requires var h := s.threads[t].queue[0];
             h in s.runs && s.runs[h].claimedBy.Some? && s.runs[r].addressed == Some(h)
    ensures var s', q := Apply(s, DoOwner(t)), s.threads[t].queue;
            && Meets(s, s', r, fate) && s'.ledger == s.ledger
            && s'.offers == s.offers + (if fate.GetsOffer? then [NoteOf(r, s.runs[r])] else [])
            && Queue(s', t) == (if fate.Waits? then InsertedSecond(q, r) else q)
            && (forall x :: x in s.runs && x != r ==> StandsAt(s', x, s.runs[x]))
  {
    NewcomerStands(s, t, r);
    OwnerApplies(s, t);
    OwnerStepIs(s, t);
    QueuedMade(s, t, r);
    var s1 := TakenIn(s, t, r);
    hide Apply, Enabled, Take, OnMessage, Reachable, OfferTo;
    OfferLetsIn(s1, t, r);
    fate := FateOf(s1, r);
    hide FateOf;
    LetInQuietly(s1, OfferTo(s1, t, r, true), t, r, fate);
    MeetsFrom(s, s1, OfferTo(s1, t, r, true), r, fate);
  }

  lemma LetInQuietly(s: State, s': State, t: ThreadId, r: RunId, fate: Fate)
    requires LetIn(s, s', t, r, fate) && s.threads[t].queue != [] && s.threads[t].queue[0] in s.runs
    requires s.threads[t].queue[0] != r && s.runs[s.threads[t].queue[0]].claimedBy.Some?
    requires s.threads[t].queue[0] in s.threads[t].live
    ensures Retire(Advance(s', t), t) == s'
  {
    var h := s.threads[t].queue[0];
    assert Queue(s', t)[0] == h && h in s'.runs && s'.runs[h] == s.runs[h] && h in s'.threads[t].live;
    hide Meets, NoMoreRoom;
    QuietOwner(s', t);
  }

  lemma MeetsFrom(s: State, s1: State, s': State, r: RunId, fate: Fate)
    requires s1 == s.(threads := s1.threads) && r in s.runs && Meets(s1, s', r, fate)
    ensures Meets(s, s', r, fate)
  {
  }

  /** Any other run that comes in behind a turn that is offered or taken goes to the back of
      the queue and waits. */
  lemma NewcomerWaits(s: State, t: ThreadId, r: RunId)
    requires Reachable(s) && Enabled(s, DoOwner(t)) && IsRead(s, t, r, Queued(r)) && s.threads[t].queue != []
    requires var h := s.threads[t].queue[0];
             h in s.runs && !Idle(s.runs[h]) && !(s.runs[h].claimedBy.Some? && s.runs[r].addressed == Some(h))
    ensures var s' := Apply(s, DoOwner(t));
            && s'.runs == s.runs && s'.done == s.done && s'.offers == s.offers && s'.ledger == s.ledger
            && Queue(s', t) == s.threads[t].queue + [r]
  {
    NewcomerStands(s, t, r);
    OwnerApplies(s, t);
    OwnerStepIs(s, t);
    QueuedMade(s, t, r);
    var s1 := TakenIn(s, t, r);
    var s2 := s1.(threads := s1.threads[t := s1.threads[t].(queue := s.threads[t].queue + [r])]);
    hide Apply, Enabled, Take, OnMessage, Reachable;
    QuietOwner(s2, t);
  }
}
