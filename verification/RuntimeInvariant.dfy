/** What every step of the provider's worker keeps, and what follows for every run of it. */
module RuntimeInvariant {
  import opened Vocabulary
  import opened RuntimeSpec

  // ---- the invariant, piece by piece ---------------------------------------------------

  /** A lane is running its active run, or parked with work and no active run. */
  predicate LaneOK(lane: Lane, key: LaneKey, inFlight: map<RunId, Task>, parked: seq<LaneKey>) {
    if lane.active.Some?
    then
      && !lane.parked && key !in parked
      && lane.active.value in inFlight && inFlight[lane.active.value].lane == Some(key)
    else lane.parked && lane.queue != [] && key in parked
  }

  /** A lane between two turns, about to be advanced. */
  predicate Between(lane: Lane, key: LaneKey, parked: seq<LaneKey>) {
    lane.active.None? && !lane.parked && key !in parked
  }

  /** `x` is the lane being advanced right now, if any. */
  ghost predicate LanesOK(lanes: map<LaneKey, Lane>, inFlight: map<RunId, Task>, parked: seq<LaneKey>,
                          x: Option<LaneKey>) {
    && (forall k :: k in lanes ==>
          if x == Some(k) then Between(lanes[k], k, parked) else LaneOK(lanes[k], k, inFlight, parked))
    && (forall k :: k in parked ==> k in lanes)
    && Distinct(parked)
    && (forall r :: r in inFlight && inFlight[r].lane.Some? ==>
          inFlight[r].lane.value in lanes && lanes[inFlight[r].lane.value].active == Some(r))
  }

  predicate Waiting(lanes: map<LaneKey, Lane>, known: map<RunId, Job>, r: RunId) {
    && r in known && KeyOf(known[r]) in lanes
    && known[r] in lanes[KeyOf(known[r])].queue
  }

  /** What a lane's queue holds: runs that were taken for this lane and are not tasks yet, each once. */
  ghost predicate QueueOK(q: seq<Job>, key: LaneKey, known: map<RunId, Job>, launched: set<RunId>) {
    && Distinct(q)
    && forall i :: 0 <= i < |q| ==>
         q[i].id in known && known[q[i].id] == q[i] && KeyOf(q[i]) == key && q[i].id !in launched
  }

  ghost predicate QueuesOK(lanes: map<LaneKey, Lane>, known: map<RunId, Job>, launched: set<RunId>) {
    && (forall k :: k in lanes ==> QueueOK(lanes[k].queue, k, known, launched))
    && (forall r :: r in known ==> known[r].id == r)
  }

  /** Every run taken waits, became a task, or was cancelled while it waited; `queued`
      is exactly what waits and was not cancelled. */
  ghost predicate BooksOK(lanes: map<LaneKey, Lane>, known: map<RunId, Job>, inFlight: map<RunId, Task>,
                          queued: set<RunId>, dropped: set<RunId>, launched: set<RunId>, gone: set<RunId>) {
    && (forall r :: r in queued <==> Waiting(lanes, known, r) && r !in dropped)
    && (forall r :: r in dropped <==> Waiting(lanes, known, r) && r in gone)
    && (forall r :: r in known ==> Waiting(lanes, known, r) || r in launched || r in gone)
    && gone !! launched && gone <= known.Keys && launched <= known.Keys
    && inFlight.Keys <= launched
  }

  ghost predicate Books(s: State) {
    BooksOK(s.lanes, s.known, s.inFlight, s.queued, s.dropped, s.launched, s.gone)
  }

  function Minus(ids: seq<RunId>, out: set<RunId>): seq<RunId> {
    if ids == [] then [] else (if ids[0] in out then [] else [ids[0]]) + Minus(ids[1..], out)
  }

  function TurnsOf(turns: seq<Turn>, key: LaneKey): seq<RunId> {
    if turns == [] then []
    else (if turns[0].lane == key then [turns[0].run] else []) + TurnsOf(turns[1..], key)
  }

  function Ids(q: seq<Job>): seq<RunId> {
    seq(|q|, i requires 0 <= i < |q| => q[i].id)
  }

  function QueueOf(lanes: map<LaneKey, Lane>, key: LaneKey): seq<Job> {
    if key in lanes then lanes[key].queue else []
  }

  /** On one lane: the turns taken, less those cancelled while they waited, are the
      turns started followed by what still waits. */
  predicate InOrder(accepted: seq<RunId>, gone: set<RunId>, starts: seq<RunId>, q: seq<Job>, dropped: set<RunId>) {
    Minus(accepted, gone) == starts + Minus(Ids(q), dropped)
  }

  ghost predicate OrderOK(lanes: map<LaneKey, Lane>, known: map<RunId, Job>, accepted: seq<Turn>, starts: seq<Turn>,
                          dropped: set<RunId>, launched: set<RunId>, gone: set<RunId>) {
    && (forall k: LaneKey :: InOrder(TurnsOf(accepted, k), gone, TurnsOf(starts, k), QueueOf(lanes, k), dropped))
    && (forall i :: 0 <= i < |starts| ==> starts[i].run in launched)
    && (forall i :: 0 <= i < |accepted| ==> accepted[i].run in known)
  }

  ghost predicate Order(s: State) {
    OrderOK(s.lanes, s.known, s.accepted, s.starts, s.dropped, s.launched, s.gone)
  }

  /** The stream of a run is over: it was cancelled while it waited, or its task is over
      and had begun. */
  predicate Closed(inFlight: map<RunId, Task>, launched: set<RunId>, gone: set<RunId>, vanished: set<RunId>, r: RunId) {
    || r in gone
    || (r in launched && r !in vanished && (r in inFlight ==> inFlight[r].phase.Over?))
  }

  predicate NothingAfterEnd(output: seq<Output>) {
    forall i, j :: 0 <= i < j < |output| && output[i].Ends? ==> output[j].run != output[i].run
  }

  ghost predicate OutputOK(output: seq<Output>, inFlight: map<RunId, Task>,
                           launched: set<RunId>, gone: set<RunId>, vanished: set<RunId>) {
    && NothingAfterEnd(output)
    && (forall r :: Ends(r) in output <==> Closed(inFlight, launched, gone, vanished, r))
    && (forall o :: o in output && o.Says? ==> o.run in launched)
    && vanished <= launched
    && (forall r :: r in vanished && r in inFlight ==> inFlight[r].phase.Over?)
  }

  function ActiveLanes(lanes: map<LaneKey, Lane>): set<LaneKey> {
    set k | k in lanes && lanes[k].active.Some?
  }

  predicate BoundOK(lanes: map<LaneKey, Lane>, limit: Option<int>) {
    limit.None? || |ActiveLanes(lanes)| == 0 || |ActiveLanes(lanes)| <= limit.value
  }

  /** Nothing waits for a slot while one is free. */
  predicate NoWaste(s: State) {
    s.parked == [] || !SlotFree(s)
  }

  ghost predicate Core(s: State, x: Option<LaneKey>) {
    var holds :=
      && LanesOK(s.lanes, s.inFlight, s.parked, x)
      && QueuesOK(s.lanes, s.known, s.launched)
      && Books(s)
      && Order(s)
      && OutputOK(s.output, s.inFlight, s.launched, s.gone, s.vanished)
      && BoundOK(s.lanes, s.limit);
    holds
  }

  ghost predicate Inv(s: State) {
    Core(s, None) && NoWaste(s)
  }

  // ---- sequences -------------------------------------------------------------------------

  lemma {:induction false} MinusAppend(a: seq<RunId>, b: seq<RunId>, out: set<RunId>)
    ensures Minus(a + b, out) == Minus(a, out) + Minus(b, out)
  {
    if a == [] {
      assert a + b == b;
    } else {
      var first := if a[0] in out then [] else [a[0]];
      calc {
        Minus(a + b, out);
        { assert (a + b)[0] == a[0] && (a + b)[1..] == a[1..] + b; }
        first + Minus(a[1..] + b, out);
        { MinusAppend(a[1..], b, out); }
        first + (Minus(a[1..], out) + Minus(b, out));
        (first + Minus(a[1..], out)) + Minus(b, out);
        Minus(a, out) + Minus(b, out);
      }
    }
  }

  lemma {:induction false} MinusMore(a: seq<RunId>, out: set<RunId>, r: RunId)
    ensures Minus(a, out + {r}) == Minus(Minus(a, out), {r})
  {
    if a != [] {
      MinusMore(a[1..], out, r);
      MinusAppend(if a[0] in out then [] else [a[0]], Minus(a[1..], out), {r});
    }
  }

  lemma {:induction false} MinusSame(a: seq<RunId>, out: set<RunId>, out': set<RunId>)
    requires forall i :: 0 <= i < |a| ==> (a[i] in out <==> a[i] in out')
    ensures Minus(a, out) == Minus(a, out')
  {
    if a != [] { MinusSame(a[1..], out, out'); }
  }

  lemma {:induction false} MinusNone(a: seq<RunId>, out: set<RunId>)
    requires forall i :: 0 <= i < |a| ==> a[i] !in out
    ensures Minus(a, out) == a
  {
    if a != [] { MinusNone(a[1..], out); }
  }

  lemma {:induction false} TurnsAppend(a: seq<Turn>, t: Turn, key: LaneKey)
    ensures TurnsOf(a + [t], key) == TurnsOf(a, key) + if t.lane == key then [t.run] else []
  {
    if a == [] {
      assert [t][1..] == [];
    } else {
      var first := if a[0].lane == key then [a[0].run] else [];
      var last := if t.lane == key then [t.run] else [];
      calc {
        TurnsOf(a + [t], key);
        { assert (a + [t])[0] == a[0] && (a + [t])[1..] == a[1..] + [t]; }
        first + TurnsOf(a[1..] + [t], key);
        { TurnsAppend(a[1..], t, key); }
        first + (TurnsOf(a[1..], key) + last);
        (first + TurnsOf(a[1..], key)) + last;
        TurnsOf(a, key) + last;
      }
    }
  }

  lemma {:induction false} TurnsWithin(a: seq<Turn>, key: LaneKey, i: nat)
    requires i < |TurnsOf(a, key)|
    ensures exists j :: 0 <= j < |a| && a[j] == Turn(key, TurnsOf(a, key)[i])
  {
    var here := a[0].lane == key;
    if here && i == 0 {
      assert a[0] == Turn(key, TurnsOf(a, key)[i]);
    } else {
      var i' := if here then i - 1 else i;
      TurnsWithin(a[1..], key, i');
      var j :| 0 <= j < |a[1..]| && a[1..][j] == Turn(key, TurnsOf(a[1..], key)[i']);
      assert a[j + 1] == Turn(key, TurnsOf(a, key)[i]);
    }
  }

  // ---- one lane's order ---------------------------------------------------------------------

  lemma OrderCancel(accepted: seq<RunId>, gone: set<RunId>, starts: seq<RunId>, q: seq<Job>, dropped: set<RunId>,
                    r: RunId)
    requires InOrder(accepted, gone, starts, q, dropped)
    requires forall i :: 0 <= i < |starts| ==> starts[i] != r
    ensures InOrder(accepted, gone + {r}, starts, q, dropped + {r})
  {
    MinusMore(accepted, gone, r);
    MinusMore(Ids(q), dropped, r);
    MinusAppend(starts, Minus(Ids(q), dropped), {r});
    MinusNone(starts, {r});
  }

  lemma OrderSkip(accepted: seq<RunId>, gone: set<RunId>, starts: seq<RunId>, q: seq<Job>, dropped: set<RunId>,
                  r: RunId)
    requires InOrder(accepted, gone, starts, q, dropped)
    requires forall i :: 0 <= i < |q| ==> q[i].id != r
    ensures InOrder(accepted, gone, starts, q, dropped - {r})
  {
    MinusSame(Ids(q), dropped, dropped - {r});
  }

  lemma OrderDiscard(accepted: seq<RunId>, gone: set<RunId>, starts: seq<RunId>, q: seq<Job>, dropped: set<RunId>)
    requires InOrder(accepted, gone, starts, q, dropped)
    requires q != [] && q[0].id in dropped
    requires forall i :: 0 < i < |q| ==> q[i].id != q[0].id
    ensures InOrder(accepted, gone, starts, q[1..], dropped - {q[0].id})
  {
    assert Ids(q)[1..] == Ids(q[1..]);
    MinusSame(Ids(q[1..]), dropped, dropped - {q[0].id});
  }

  lemma OrderStart(accepted: seq<RunId>, gone: set<RunId>, starts: seq<RunId>, q: seq<Job>, dropped: set<RunId>)
    requires InOrder(accepted, gone, starts, q, dropped)
    requires q != [] && q[0].id !in dropped
    ensures InOrder(accepted, gone, starts + [q[0].id], q[1..], dropped)
  {
    assert Ids(q)[1..] == Ids(q[1..]);
  }

  lemma OrderAppend(accepted: seq<RunId>, gone: set<RunId>, starts: seq<RunId>, q: seq<Job>, dropped: set<RunId>,
                    job: Job)
    requires InOrder(accepted, gone, starts, q, dropped)
    requires job.id !in gone && job.id !in dropped
    ensures InOrder(accepted + [job.id], gone, starts, q + [job], dropped)
  {
    assert Ids(q + [job]) == Ids(q) + [job.id];
    MinusAppend(accepted, [job.id], gone);
    MinusAppend(Ids(q), [job.id], dropped);
    MinusNone([job.id], gone);
    MinusNone([job.id], dropped);
  }

  // ---- slots ------------------------------------------------------------------------------------

  lemma {:induction false} ActiveWithin(lanes: map<LaneKey, Lane>, inFlight: map<RunId, Task>, some: set<LaneKey>)
    requires forall k :: k in some ==> k in lanes && lanes[k].active.Some?
    requires forall k :: k in some ==>
             lanes[k].active.value in inFlight && inFlight[lanes[k].active.value].lane == Some(k)
    ensures |some| <= |inFlight|
    decreases |some|
  {
    if some != {} {
      var k :| k in some;
      var r := lanes[k].active.value;
      ActiveWithin(lanes, inFlight - {r}, some - {k});
      assert (inFlight - {r}).Keys == inFlight.Keys - {r};
      assert |inFlight.Keys - {r}| == |inFlight.Keys| - 1;
    }
  }

  // ---- advancing a lane ----------------------------------------------------------------------------

  /** What a lane's queue holds is nothing to the lane's own standing, unless it is parked. */
  lemma RequeueLanes(lanes: map<LaneKey, Lane>, inFlight: map<RunId, Task>, parked: seq<LaneKey>, x: Option<LaneKey>,
                     key: LaneKey, q: seq<Job>)
    requires LanesOK(lanes, inFlight, parked, x) && key in lanes && (q != [] || x == Some(key))
    ensures LanesOK(lanes[key := lanes[key].(queue := q)], inFlight, parked, x)
  {
  }

  lemma RequeueBound(lanes: map<LaneKey, Lane>, limit: Option<int>, key: LaneKey, q: seq<Job>)
    requires BoundOK(lanes, limit) && key in lanes
    ensures BoundOK(lanes[key := lanes[key].(queue := q)], limit)
  {
    assert ActiveLanes(lanes[key := lanes[key].(queue := q)]) == ActiveLanes(lanes);
  }

  lemma PopWaiting(lanes: map<LaneKey, Lane>, known: map<RunId, Job>, launched: set<RunId>, key: LaneKey, lane: Lane)
    requires QueuesOK(lanes, known, launched) && key in lanes && lanes[key].queue != []
    requires lane.queue == lanes[key].queue[1..]
    ensures forall r ::
              Waiting(lanes[key := lane], known, r) <==> Waiting(lanes, known, r) && r != lanes[key].queue[0].id
    ensures QueuesOK(lanes[key := lane], known, launched)
  {
    var q := lanes[key].queue;
    assert QueueOK(q, key, known, launched);
    forall r ensures Waiting(lanes[key := lane], known, r) <==> Waiting(lanes, known, r) && r != q[0].id {
      if r in known && KeyOf(known[r]) == key { PopMember(q, known[r]); }
    }
  }

  lemma PopMember(q: seq<Job>, job: Job)
    requires q != [] && Distinct(q)
    ensures job in q[1..] <==> job in q && job != q[0]
  {
    assert q == [q[0]] + q[1..];
  }

  lemma DiscardKeeps(s: State, key: LaneKey)
    requires Core(s, Some(key)) && key in s.lanes && s.lanes[key].queue != [] && s.lanes[key].queue[0].id in s.dropped
    ensures Core(Discard(s, key), Some(key))
  {
    hide LanesOK, QueuesOK, BooksOK, OrderOK, OutputOK, BoundOK;
    var q := s.lanes[key].queue;
    RequeueLanes(s.lanes, s.inFlight, s.parked, Some(key), key, q[1..]);
    RequeueBound(s.lanes, s.limit, key, q[1..]);
    PopWaiting(s.lanes, s.known, s.launched, key, s.lanes[key].(queue := q[1..]));
    DiscardBooks(s, key);
    DiscardOrder(s, key);
  }

  lemma DiscardBooks(s: State, key: LaneKey)
    requires Books(s) && key in s.lanes && s.lanes[key].queue != [] && s.lanes[key].queue[0].id in s.dropped
    requires forall r :: Waiting(Discard(s, key).lanes, s.known, r)
                    <==> Waiting(s.lanes, s.known, r) && r != s.lanes[key].queue[0].id
    ensures Books(Discard(s, key))
  {
  }

  lemma DiscardOrder(s: State, key: LaneKey)
    requires QueuesOK(s.lanes, s.known, s.launched) && Order(s)
    requires key in s.lanes && s.lanes[key].queue != [] && s.lanes[key].queue[0].id in s.dropped
    ensures Order(Discard(s, key))
  {
    var s' := Discard(s, key);
    var q := s.lanes[key].queue;
    forall k: LaneKey
      ensures InOrder(TurnsOf(s.accepted, k), s.gone, TurnsOf(s.starts, k), QueueOf(s'.lanes, k), s'.dropped)
    {
      assert InOrder(TurnsOf(s.accepted, k), s.gone, TurnsOf(s.starts, k), QueueOf(s.lanes, k), s.dropped);
      if k == key {
        OrderDiscard(TurnsOf(s.accepted, k), s.gone, TurnsOf(s.starts, k), q, s.dropped);
      } else {
        OrderSkip(TurnsOf(s.accepted, k), s.gone, TurnsOf(s.starts, k), QueueOf(s.lanes, k), s.dropped, q[0].id);
      }
    }
  }

  lemma ParkKeeps(s: State, key: LaneKey)
    requires Core(s, Some(key)) && key in s.lanes && s.lanes[key].queue != []
    ensures Core(Park(s, key), None)
  {
    hide LanesOK, BooksOK, OrderOK, OutputOK, BoundOK, QueuesOK;
    ParkLanes(s.lanes, s.inFlight, s.parked, key);
    StandingAside(s, key, s.lanes[key].(parked := true));
  }

  lemma ParkLanes(lanes: map<LaneKey, Lane>, inFlight: map<RunId, Task>, parked: seq<LaneKey>, key: LaneKey)
    requires LanesOK(lanes, inFlight, parked, Some(key)) && key in lanes && lanes[key].queue != []
    ensures !lanes[key].parked
    ensures LanesOK(lanes[key := lanes[key].(parked := true)], inFlight, parked + [key], None)
  {
  }

  /** Changing only a lane's `parked` flag is nothing to anything but the lanes. */
  lemma StandingAside(s: State, key: LaneKey, lane: Lane)
    requires key in s.lanes && lane.queue == s.lanes[key].queue && lane.active == s.lanes[key].active
    requires QueuesOK(s.lanes, s.known, s.launched) && Books(s) && Order(s) && BoundOK(s.lanes, s.limit)
    ensures var lanes' := s.lanes[key := lane];
            && QueuesOK(lanes', s.known, s.launched)
            && OrderOK(lanes', s.known, s.accepted, s.starts, s.dropped, s.launched, s.gone)
            && BooksOK(lanes', s.known, s.inFlight, s.queued, s.dropped, s.launched, s.gone) && BoundOK(lanes', s.limit)
  {
    var lanes' := s.lanes[key := lane];
    assert ActiveLanes(lanes') == ActiveLanes(s.lanes);
    assert forall r :: Waiting(lanes', s.known, r) == Waiting(s.lanes, s.known, r);
    assert forall k: LaneKey :: QueueOf(lanes', k) == QueueOf(s.lanes, k);
  }

  lemma RetireKeeps(s: State, key: LaneKey)
    requires Core(s, Some(key)) && key in s.lanes && s.lanes[key].queue == []
    ensures Core(s.(lanes := s.lanes - {key}), None)
  {
    var lanes' := s.lanes - {key};
    assert ActiveLanes(lanes') == ActiveLanes(s.lanes);
    assert forall r :: Waiting(lanes', s.known, r) == Waiting(s.lanes, s.known, r);
    assert forall k: LaneKey :: QueueOf(lanes', k) == QueueOf(s.lanes, k);
    assert LanesOK(lanes', s.inFlight, s.parked, None);
  }

  lemma StartKeeps(s: State, key: LaneKey)
    requires Core(s, Some(key)) && key in s.lanes && s.lanes[key].queue != []
    requires s.lanes[key].queue[0].id !in s.dropped && SlotFree(s)
    ensures Core(StartTurn(s, key), None)
  {
    hide LanesOK, BooksOK, OrderOK, OutputOK, BoundOK, QueuesOK;
    var lane := s.lanes[key];
    var job := lane.queue[0];
    var lane' := lane.(queue := lane.queue[1..], active := Some(job.id));
    QueueHead(s, key);
    StartLanes(s.lanes, s.inFlight, s.parked, key, lane', job.id);
    StartBound(s, key, lane');
    PopWaiting(s.lanes, s.known, s.launched, key, lane');
    StartQueues(s.lanes[key := lane'], s.known, s.launched, job.id);
    StartBooks(s, key);
    StartOrder(s, key);
    StartOutput(s, job.id);
  }

  lemma QueueHead(s: State, key: LaneKey)
    requires QueuesOK(s.lanes, s.known, s.launched) && Books(s)
    requires key in s.lanes && s.lanes[key].queue != [] && s.lanes[key].queue[0].id !in s.dropped
    ensures var job := s.lanes[key].queue[0];
            && job.id in s.known && s.known[job.id] == job && KeyOf(job) == key && Waiting(s.lanes, s.known, job.id)
            && job.id !in s.launched && job.id !in s.inFlight && job.id !in s.gone
  {
  }

  lemma StartLanes(lanes: map<LaneKey, Lane>, inFlight: map<RunId, Task>, parked: seq<LaneKey>, key: LaneKey,
                   lane: Lane, r: RunId)
    requires LanesOK(lanes, inFlight, parked, Some(key)) && key in lanes && r !in inFlight
    requires lane.active == Some(r) && lane.parked == lanes[key].parked
    ensures LanesOK(lanes[key := lane], inFlight[r := Task(Some(key), Spawned, false)], parked, None)
  {
  }

  lemma StartBound(s: State, key: LaneKey, lane: Lane)
    requires LanesOK(s.lanes, s.inFlight, s.parked, Some(key)) && key in s.lanes && SlotFree(s)
    requires lane.active.Some?
    ensures BoundOK(s.lanes[key := lane], s.limit)
  {
    var before := ActiveLanes(s.lanes);
    ActiveWithin(s.lanes, s.inFlight, before);
    assert ActiveLanes(s.lanes[key := lane]) == before + {key};
  }

  lemma StartQueues(lanes: map<LaneKey, Lane>, known: map<RunId, Job>, launched: set<RunId>, r: RunId)
    requires QueuesOK(lanes, known, launched) && !Waiting(lanes, known, r)
    ensures QueuesOK(lanes, known, launched + {r})
  {
    forall k | k in lanes ensures QueueOK(lanes[k].queue, k, known, launched + {r}) {
      var q := lanes[k].queue;
      assert QueueOK(q, k, known, launched);
      assert forall i :: 0 <= i < |q| ==> q[i].id == r ==> Waiting(lanes, known, r);
    }
  }

  lemma StartBooks(s: State, key: LaneKey)
    requires Books(s) && key in s.lanes && s.lanes[key].queue != []
    requires Waiting(s.lanes, s.known, s.lanes[key].queue[0].id) && s.lanes[key].queue[0].id !in s.dropped
    requires forall r :: Waiting(StartTurn(s, key).lanes, s.known, r)
                    <==> Waiting(s.lanes, s.known, r) && r != s.lanes[key].queue[0].id
    ensures Books(StartTurn(s, key))
  {
  }

  lemma StartOrder(s: State, key: LaneKey)
    requires Order(s) && key in s.lanes && s.lanes[key].queue != [] && s.lanes[key].queue[0].id !in s.dropped
    ensures Order(StartTurn(s, key))
  {
    var s' := StartTurn(s, key);
    var q := s.lanes[key].queue;
    var turn := Turn(key, q[0].id);
    forall k: LaneKey
      ensures InOrder(TurnsOf(s'.accepted, k), s'.gone, TurnsOf(s'.starts, k), QueueOf(s'.lanes, k), s'.dropped)
    {
      assert InOrder(TurnsOf(s.accepted, k), s.gone, TurnsOf(s.starts, k), QueueOf(s.lanes, k), s.dropped);
      TurnsAppend(s.starts, turn, k);
      if k == key {
        OrderStart(TurnsOf(s.accepted, k), s.gone, TurnsOf(s.starts, k), q, s.dropped);
      } else {
        assert TurnsOf(s.starts, k) + [] == TurnsOf(s.starts, k);
      }
    }
  }

  lemma StartOutput(s: State, r: RunId)
    requires OutputOK(s.output, s.inFlight, s.launched, s.gone, s.vanished) && r !in s.launched && r !in s.gone
    ensures forall lane :: OutputOK(s.output, s.inFlight[r := Task(lane, Spawned, false)], s.launched + {r}, s.gone,
                                    s.vanished)
  {
    forall lane
      ensures OutputOK(s.output, s.inFlight[r := Task(lane, Spawned, false)], s.launched + {r}, s.gone, s.vanished)
    {
      var inFlight' := s.inFlight[r := Task(lane, Spawned, false)];
      assert forall q :: Closed(inFlight', s.launched + {r}, s.gone, s.vanished, q)
                    <==> Closed(s.inFlight, s.launched, s.gone, s.vanished, q);
    }
  }

  /** Advancing a lane that is between turns leaves it running, parked or gone. */
  lemma {:induction false} LaneNextKeeps(s: State, key: LaneKey)
    requires Core(s, Some(key)) && key in s.lanes
    ensures Core(LaneNext(s, key), None)
    decreases |s.lanes[key].queue|
  {
    hide Core;
    if s.lanes[key].queue == [] {
      RetireKeeps(s, key);
    } else if s.lanes[key].queue[0].id in s.dropped {
      DiscardKeeps(s, key);
      LaneNextKeeps(Discard(s, key), key);
    } else if !SlotFree(s) {
      ParkKeeps(s, key);
    } else {
      StartKeeps(s, key);
    }
  }

  /** Advancing a lane wastes no slot that was not wasted before. */
  lemma {:induction false} LaneNextWastesNothing(s: State, key: LaneKey)
    requires NoWaste(s)
    ensures NoWaste(LaneNext(s, key))
    decreases if key in s.lanes then |s.lanes[key].queue| else 0
  {
    if key in s.lanes && s.lanes[key].queue != [] && s.lanes[key].queue[0].id in s.dropped {
      LaneNextWastesNothing(Discard(s, key), key);
    }
  }

  lemma UnparkKeeps(s: State)
    requires Core(s, None) && s.parked != []
    ensures s.parked[0] in s.lanes && Core(Unpark(s), Some(s.parked[0]))
  {
    hide BooksOK, OrderOK, OutputOK, BoundOK, QueuesOK;
    UnparkLanes(s.lanes, s.inFlight, s.parked);
    StandingAside(s, s.parked[0], s.lanes[s.parked[0]].(parked := false));
  }

  lemma UnparkLanes(lanes: map<LaneKey, Lane>, inFlight: map<RunId, Task>, parked: seq<LaneKey>)
    requires LanesOK(lanes, inFlight, parked, None) && parked != []
    ensures parked[0] in lanes
    ensures LanesOK(lanes[parked[0] := lanes[parked[0]].(parked := false)], inFlight, parked[1..], Some(parked[0]))
  {
    assert parked == [parked[0]] + parked[1..];
  }

  lemma {:induction false} KickParkedKeeps(s: State)
    requires Core(s, None)
    ensures Inv(KickParked(s))
    decreases |s.parked|
  {
    hide Core;
    if s.parked != [] && SlotFree(s) {
      UnparkKeeps(s);
      LaneNextKeeps(Unpark(s), s.parked[0]);
      KickParkedKeeps(LaneNext(Unpark(s), s.parked[0]));
    }
  }

  // ---- taking a run in ---------------------------------------------------------------------------

  lemma AppendKeeps(s: State, job: Job)
    requires Core(s, None) && job.id !in s.known
    ensures Core(Append(s, job), if KeyOf(job) in s.lanes then None else Some(KeyOf(job)))
  {
    hide LanesOK, BooksOK, OrderOK, OutputOK, BoundOK, QueuesOK;
    var key := KeyOf(job);
    var lane := if key in s.lanes then s.lanes[key] else Lane([], None, false);
    var lane' := lane.(queue := lane.queue + [job]);
    if key in s.lanes {
      RequeueLanes(s.lanes, s.inFlight, s.parked, None, key, lane'.queue);
      RequeueBound(s.lanes, s.limit, key, lane'.queue);
    } else {
      OpenLane(s.lanes, s.inFlight, s.parked, s.limit, key, lane');
    }
    UnknownRun(s, job.id);
    AppendQueues(s.lanes, s.known, s.launched, job, lane');
    AppendBooks(s, job);
    AppendOrder(s, job);
  }

  lemma UnknownRun(s: State, r: RunId)
    requires Books(s) && r !in s.known
    ensures r !in s.launched && r !in s.gone && r !in s.dropped && r !in s.inFlight
  {
  }

  lemma OpenLane(lanes: map<LaneKey, Lane>, inFlight: map<RunId, Task>, parked: seq<LaneKey>, limit: Option<int>,
                 key: LaneKey, lane: Lane)
    requires LanesOK(lanes, inFlight, parked, None) && BoundOK(lanes, limit)
    requires key !in lanes && lane.active.None? && !lane.parked
    ensures LanesOK(lanes[key := lane], inFlight, parked, Some(key)) && BoundOK(lanes[key := lane], limit)
  {
    assert ActiveLanes(lanes[key := lane]) == ActiveLanes(lanes);
  }

  lemma AppendQueues(lanes: map<LaneKey, Lane>, known: map<RunId, Job>, launched: set<RunId>, job: Job, lane: Lane)
    requires QueuesOK(lanes, known, launched) && job.id !in known && job.id !in launched
    requires lane.queue == QueueOf(lanes, KeyOf(job)) + [job]
    ensures var lanes', known' := lanes[KeyOf(job) := lane], known[job.id := job];
            && QueuesOK(lanes', known', launched)
            && forall r :: Waiting(lanes', known', r) <==> Waiting(lanes, known, r) || r == job.id
  {
    var key := KeyOf(job);
    var lanes', known' := lanes[key := lane], known[job.id := job];
    assert lane.queue[|lane.queue| - 1] == job;
    forall k | k in lanes' ensures QueueOK(lanes'[k].queue, k, known', launched) {
      assert k in lanes ==> QueueOK(lanes[k].queue, k, known, launched);
    }
  }

  lemma AppendBooks(s: State, job: Job)
    requires Books(s) && job.id !in s.launched && job.id !in s.gone && job.id !in s.dropped && job.id !in s.known
    requires forall r :: Waiting(Append(s, job).lanes, Append(s, job).known, r)
                    <==> Waiting(s.lanes, s.known, r) || r == job.id
    ensures Books(Append(s, job))
  {
  }

  lemma AppendOrder(s: State, job: Job)
    requires Order(s) && job.id !in s.gone && job.id !in s.dropped
    ensures Order(Append(s, job))
  {
    var s' := Append(s, job);
    forall k: LaneKey
      ensures InOrder(TurnsOf(s'.accepted, k), s'.gone, TurnsOf(s'.starts, k), QueueOf(s'.lanes, k), s'.dropped)
    {
      assert InOrder(TurnsOf(s.accepted, k), s.gone, TurnsOf(s.starts, k), QueueOf(s.lanes, k), s.dropped);
      TurnsAppend(s.accepted, Turn(KeyOf(job), job.id), k);
      if k == KeyOf(job) {
        OrderAppend(TurnsOf(s.accepted, k), s.gone, TurnsOf(s.starts, k), QueueOf(s.lanes, k), s.dropped, job);
      } else {
        assert TurnsOf(s.accepted, k) + [] == TurnsOf(s.accepted, k);
      }
    }
  }

  /** An interjection becomes a task at once, on nobody's turn. */
  lemma InterjectKeeps(s: State, job: Job)
    requires Inv(s) && job.id !in s.known
    ensures Inv(Launch(Enroll(s, job), job, None))
  {
    hide LanesOK, BooksOK, OrderOK, OutputOK, BoundOK, QueuesOK;
    var known' := s.known[job.id := job];
    UnknownRun(s, job.id);
    InterjectLanes(s.lanes, s.inFlight, s.parked, job.id);
    InterjectQueues(s.lanes, s.known, s.launched, job);
    assert !Waiting(s.lanes, s.known, job.id);
    StartQueues(s.lanes, known', s.launched, job.id);
    InterjectBooks(s, job);
    InterjectOrder(s, job);
    StartOutput(s, job.id);
    MoreTasks(s.inFlight, job.id, Task(None, Spawned, false));
  }

  lemma MoreTasks(inFlight: map<RunId, Task>, r: RunId, task: Task)
    requires r !in inFlight
    ensures |inFlight[r := task]| == |inFlight| + 1
  {
    assert inFlight[r := task].Keys == inFlight.Keys + {r};
  }

  lemma InterjectLanes(lanes: map<LaneKey, Lane>, inFlight: map<RunId, Task>, parked: seq<LaneKey>, r: RunId)
    requires LanesOK(lanes, inFlight, parked, None) && r !in inFlight
    ensures LanesOK(lanes, inFlight[r := Task(None, Spawned, false)], parked, None)
  {
  }

  lemma InterjectQueues(lanes: map<LaneKey, Lane>, known: map<RunId, Job>, launched: set<RunId>, job: Job)
    requires QueuesOK(lanes, known, launched) && job.id !in known
    ensures QueuesOK(lanes, known[job.id := job], launched)
    ensures forall r :: Waiting(lanes, known[job.id := job], r) <==> Waiting(lanes, known, r)
  {
    assert forall k :: k in lanes ==> QueueOK(lanes[k].queue, k, known, launched);
  }

  lemma InterjectBooks(s: State, job: Job)
    requires Books(s) && job.id !in s.launched && job.id !in s.gone && job.id !in s.known
    requires forall r :: Waiting(s.lanes, s.known[job.id := job], r) <==> Waiting(s.lanes, s.known, r)
    ensures Books(Launch(Enroll(s, job), job, None))
  {
  }

  lemma InterjectOrder(s: State, job: Job)
    requires Order(s)
    ensures Order(Launch(Enroll(s, job), job, None))
  {
    forall k: LaneKey
      ensures InOrder(TurnsOf(s.accepted, k), s.gone, TurnsOf(s.starts, k), QueueOf(s.lanes, k), s.dropped)
    {
    }
  }

  lemma DeliverKeeps(s: State, job: Job, hook: bool)
    requires Inv(s) && job.id !in s.known
    ensures Inv(Deliver(s, job, hook).0)
  {
    hide Core;
    if s.running && JoinsActive(s, job) {
      InterjectKeeps(s, job);
    } else if s.running && HasRoom(s) {
      AppendKeeps(s, job);
      if KeyOf(job) !in s.lanes {
        LaneNextKeeps(Append(s, job), KeyOf(job));
        LaneNextWastesNothing(Append(s, job), KeyOf(job));
      }
    }
  }

  // ---- cancelling ------------------------------------------------------------------------------------

  lemma DropKeeps(s: State, r: RunId)
    requires Inv(s) && r in s.queued
    ensures Inv(Drop(s, r))
  {
    hide LanesOK, BooksOK, OrderOK, OutputOK, BoundOK, QueuesOK;
    QueuedRun(s, r);
    DropBooks(s, r);
    DropOrder(s, r);
    assert s.gone + {r} - {r} == s.gone - {r};
    CloseOutput(s.output, s.inFlight, s.launched, s.gone, s.vanished, s.inFlight, s.gone + {r}, r);
  }

  lemma QueuedRun(s: State, r: RunId)
    requires Books(s) && QueuesOK(s.lanes, s.known, s.launched) && r in s.queued
    ensures Waiting(s.lanes, s.known, r) && r !in s.dropped && r !in s.launched && r !in s.gone && r !in s.inFlight
  {
    var q := s.lanes[KeyOf(s.known[r])].queue;
    var i :| 0 <= i < |q| && q[i] == s.known[r];
    assert QueueOK(q, KeyOf(s.known[r]), s.known, s.launched);
  }

  lemma DropBooks(s: State, r: RunId)
    requires Books(s) && Waiting(s.lanes, s.known, r) && r !in s.launched
    ensures Books(Drop(s, r))
  {
  }

  lemma DropOrder(s: State, r: RunId)
    requires Order(s) && r !in s.launched
    ensures Order(Drop(s, r))
  {
    forall k: LaneKey
      ensures InOrder(TurnsOf(s.accepted, k), s.gone + {r}, TurnsOf(s.starts, k), QueueOf(s.lanes, k), s.dropped + {r})
    {
      assert InOrder(TurnsOf(s.accepted, k), s.gone, TurnsOf(s.starts, k), QueueOf(s.lanes, k), s.dropped);
      forall i | 0 <= i < |TurnsOf(s.starts, k)| ensures TurnsOf(s.starts, k)[i] != r {
        TurnsWithin(s.starts, k, i);
      }
      OrderCancel(TurnsOf(s.accepted, k), s.gone, TurnsOf(s.starts, k), QueueOf(s.lanes, k), s.dropped, r);
    }
  }

  lemma NothingAfterOne(output: seq<Output>, o: Output)
    requires NothingAfterEnd(output) && Ends(o.run) !in output
    ensures NothingAfterEnd(output + [o])
  {
    forall i | 0 <= i < |output| && output[i].Ends? ensures output[i].run != o.run {
      assert output[i] == Ends(output[i].run) && output[i] in output;
    }
  }

  /** One run's stream closes, with one end marker. */
  lemma CloseOutput(output: seq<Output>, inFlight: map<RunId, Task>, launched: set<RunId>, gone: set<RunId>,
                    vanished: set<RunId>,
                    inFlight': map<RunId, Task>, gone': set<RunId>, r: RunId)
    requires OutputOK(output, inFlight, launched, gone, vanished)
    requires !Closed(inFlight, launched, gone, vanished, r) && Closed(inFlight', launched, gone', vanished, r)
    requires gone' - {r} == gone - {r}
    requires inFlight'.Keys == inFlight.Keys && forall q :: q in inFlight && q != r ==> inFlight'[q] == inFlight[q]
    requires r in vanished && r in inFlight' ==> inFlight'[r].phase.Over?
    ensures OutputOK(output + [Ends(r)], inFlight', launched, gone', vanished)
  {
    var output' := output + [Ends(r)];
    forall q ensures Ends(q) in output' <==> Closed(inFlight', launched, gone', vanished, q) {
      if q != r {
        assert q in gone <==> q in gone' - {r};
        assert Closed(inFlight', launched, gone', vanished, q) == Closed(inFlight, launched, gone, vanished, q);
      }
    }
    NothingAfterOne(output, Ends(r));
  }

  /** A change to a task that leaves its lane alone. */
  lemma RetaskKeeps(s: State, inFlight': map<RunId, Task>)
    requires LanesOK(s.lanes, s.inFlight, s.parked, None) && Books(s)
    requires inFlight'.Keys == s.inFlight.Keys
    requires forall r :: r in s.inFlight ==> inFlight'[r].lane == s.inFlight[r].lane
    ensures LanesOK(s.lanes, inFlight', s.parked, None)
    ensures BooksOK(s.lanes, s.known, inFlight', s.queued, s.dropped, s.launched, s.gone)
    ensures SlotFree(s.(inFlight := inFlight')) == SlotFree(s)
  {
    assert |inFlight'| == |inFlight'.Keys| && |s.inFlight| == |s.inFlight.Keys|;
  }

  lemma CancelKeeps(s: State, r: RunId)
    requires Inv(s)
    ensures Inv(Cancel(s, r))
  {
    hide LanesOK, BooksOK, OrderOK, BoundOK, QueuesOK;
    if r in s.inFlight {
      var inFlight' := s.inFlight[r := s.inFlight[r].(cancelled := true)];
      RetaskKeeps(s, inFlight');
      SamePhases(s, inFlight');
    } else if r in s.queued {
      DropKeeps(s, r);
    }
  }

  lemma SamePhases(s: State, inFlight': map<RunId, Task>)
    requires OutputOK(s.output, s.inFlight, s.launched, s.gone, s.vanished)
    requires inFlight'.Keys == s.inFlight.Keys
    requires forall r :: r in s.inFlight ==> inFlight'[r].phase.Over? == s.inFlight[r].phase.Over?
    ensures OutputOK(s.output, inFlight', s.launched, s.gone, s.vanished)
  {
    assert forall r :: Closed(inFlight', s.launched, s.gone, s.vanished, r)
                  <==> Closed(s.inFlight, s.launched, s.gone, s.vanished, r);
  }

  lemma CloseAllKeeps(s: State, inFlight': map<RunId, Task>, running: bool)
    requires Inv(s) && (inFlight' == s.inFlight || inFlight' == CancelAll(s.inFlight))
    ensures Inv(s.(running := running, inFlight := inFlight'))
  {
    hide LanesOK, BooksOK, OrderOK, BoundOK, QueuesOK, OutputOK;
    RetaskKeeps(s, inFlight');
    SamePhases(s, inFlight');
  }

  // ---- one run's task ------------------------------------------------------------------------------------

  lemma BeginKeeps(s: State, r: RunId)
    requires Inv(s) && InPhase(s, r, Spawned)
    ensures Inv(Begin(s, r))
  {
    hide LanesOK, BooksOK, OrderOK, BoundOK, QueuesOK, OutputOK;
    RetaskKeeps(s, Begin(s, r).inFlight);
    SamePhases(s, Begin(s, r).inFlight);
  }

  lemma VanishKeeps(s: State, r: RunId)
    requires Inv(s) && InPhase(s, r, Spawned)
    ensures Inv(Vanish(s, r))
  {
    hide LanesOK, BooksOK, OrderOK, BoundOK, QueuesOK, OutputOK;
    RetaskKeeps(s, Vanish(s, r).inFlight);
    VanishOutput(s, r);
  }

  lemma VanishOutput(s: State, r: RunId)
    requires OutputOK(s.output, s.inFlight, s.launched, s.gone, s.vanished) && InPhase(s, r, Spawned) && Books(s)
    ensures OutputOK(s.output, Vanish(s, r).inFlight, s.launched, s.gone, s.vanished + {r})
  {
    var s' := Vanish(s, r);
    assert forall q :: Closed(s'.inFlight, s.launched, s.gone, s'.vanished, q)
                  <==> Closed(s.inFlight, s.launched, s.gone, s.vanished, q);
  }

  lemma EmitKeeps(s: State, r: RunId, e: Event)
    requires Inv(s) && InPhase(s, r, Streaming)
    ensures Inv(Emit(s, r, e))
  {
    hide LanesOK, BooksOK, OrderOK, BoundOK, QueuesOK, OutputOK;
    EmitOutput(s, r, e);
  }

  lemma EmitOutput(s: State, r: RunId, e: Event)
    requires OutputOK(s.output, s.inFlight, s.launched, s.gone, s.vanished) && InPhase(s, r, Streaming) && Books(s)
    ensures OutputOK(s.output + [Says(r, e)], s.inFlight, s.launched, s.gone, s.vanished)
  {
    assert !Closed(s.inFlight, s.launched, s.gone, s.vanished, r);
    var output' := s.output + [Says(r, e)];
    assert forall q :: Ends(q) in output' <==> Ends(q) in s.output;
    NothingAfterOne(s.output, Says(r, e));
  }

  lemma ConcludeKeeps(s: State, r: RunId)
    requires Inv(s) && InPhase(s, r, Streaming)
    ensures Inv(Conclude(s, r))
  {
    hide LanesOK, BooksOK, OrderOK, BoundOK, QueuesOK, OutputOK;
    var inFlight' := Conclude(s, r).inFlight;
    RetaskKeeps(s, inFlight');
    OpenTask(s, r);
    CloseOutput(s.output, s.inFlight, s.launched, s.gone, s.vanished, inFlight', s.gone, r);
  }

  lemma OpenTask(s: State, r: RunId)
    requires OutputOK(s.output, s.inFlight, s.launched, s.gone, s.vanished) && InPhase(s, r, Streaming) && Books(s)
    ensures r in s.launched && r !in s.gone && r !in s.vanished
  {
  }

  // ---- a task is done ---------------------------------------------------------------------------------------

  lemma DoneKeeps(s: State, r: RunId)
    requires Inv(s) && InPhase(s, r, Over)
    ensures Inv(Done(s, r))
  {
    hide Core;
    var lane := s.inFlight[r].lane;
    LeaveKeeps(s, r);
    if lane.Some? {
      LaneNextKeeps(Vacate(Leave(s, r), lane.value), lane.value);
      KickParkedKeeps(LaneNext(Vacate(Leave(s, r), lane.value), lane.value));
    } else {
      KickParkedKeeps(Leave(s, r));
    }
  }

  lemma LeaveKeeps(s: State, r: RunId)
    requires Core(s, None) && InPhase(s, r, Over)
    ensures var lane := s.inFlight[r].lane;
            if lane.Some?
            then lane.value in s.lanes && s.lanes[lane.value].active == Some(r)
                 && Core(Vacate(Leave(s, r), lane.value), Some(lane.value))
            else Core(Leave(s, r), None)
  {
    hide LanesOK, BooksOK, OrderOK, BoundOK, QueuesOK, OutputOK;
    var lane := s.inFlight[r].lane;
    LeaveRest(s, r);
    LeaveLanes(s.lanes, s.inFlight, s.parked, r);
    if lane.Some? {
      VacateRest(s, lane.value, s.inFlight - {r});
    }
  }

  lemma LeaveLanes(lanes: map<LaneKey, Lane>, inFlight: map<RunId, Task>, parked: seq<LaneKey>, r: RunId)
    requires LanesOK(lanes, inFlight, parked, None) && r in inFlight
    ensures var lane := inFlight[r].lane;
            if lane.Some?
            then lane.value in lanes && lanes[lane.value].active == Some(r)
                 && LanesOK(lanes[lane.value := lanes[lane.value].(active := None)], inFlight - {r}, parked, lane)
            else LanesOK(lanes, inFlight - {r}, parked, None)
  {
  }

  lemma LeaveRest(s: State, r: RunId)
    requires Books(s) && OutputOK(s.output, s.inFlight, s.launched, s.gone, s.vanished) && InPhase(s, r, Over)
    ensures BooksOK(s.lanes, s.known, s.inFlight - {r}, s.queued, s.dropped, s.launched, s.gone)
    ensures OutputOK(s.output, s.inFlight - {r}, s.launched, s.gone, s.vanished)
  {
    assert forall q :: Closed(s.inFlight - {r}, s.launched, s.gone, s.vanished, q)
                  <==> Closed(s.inFlight, s.launched, s.gone, s.vanished, q);
  }

  lemma VacateRest(s: State, key: LaneKey, inFlight': map<RunId, Task>)
    requires key in s.lanes && QueuesOK(s.lanes, s.known, s.launched) && Order(s) && BoundOK(s.lanes, s.limit)
    ensures var lanes' := s.lanes[key := s.lanes[key].(active := None)];
            && QueuesOK(lanes', s.known, s.launched) && BoundOK(lanes', s.limit)
            && OrderOK(lanes', s.known, s.accepted, s.starts, s.dropped, s.launched, s.gone)
            && (BooksOK(s.lanes, s.known, inFlight', s.queued, s.dropped, s.launched, s.gone)
                ==> BooksOK(lanes', s.known, inFlight', s.queued, s.dropped, s.launched, s.gone))
  {
    var lanes' := s.lanes[key := s.lanes[key].(active := None)];
    assert forall r :: Waiting(lanes', s.known, r) <==> Waiting(s.lanes, s.known, r);
    assert ActiveLanes(lanes') == ActiveLanes(s.lanes) - {key};
    assert forall k: LaneKey :: QueueOf(lanes', k) == QueueOf(s.lanes, k);
  }
}
