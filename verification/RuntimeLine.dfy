/** Who gets an execution slot that comes free: the lane whose run is done, and then the
    lanes that wait for one, in the order they began to. */
module RuntimeLine {
  import opened Vocabulary
  import opened RuntimeSpec
  import opened RuntimeInvariant

  /** The runs of a queue that were not cancelled while they waited. */
  predicate HasWork(q: seq<Job>, gone: set<RunId>) {
    exists i :: 0 <= i < |q| && q[i].id !in gone
  }

  /** The turn a lane takes when a slot is free: its first run that was not cancelled. */
  function NextTurn(key: LaneKey, q: seq<Job>, gone: set<RunId>): seq<Turn> {
    if q == [] then [] else if q[0].id in gone then NextTurn(key, q[1..], gone) else [Turn(key, q[0].id)]
  }

  /** The turns a line of lanes takes, in the order of the line. */
  function TurnsOfLine(lanes: map<LaneKey, Lane>, gone: set<RunId>, line: seq<LaneKey>): seq<Turn> {
    if line == [] then []
    else NextTurn(line[0], QueueOf(lanes, line[0]), gone) + TurnsOfLine(lanes, gone, line[1..])
  }

  /** The lane whose own run a step takes in or lets go. */
  function OwnLane(s: State, e: Step): Option<LaneKey>
    requires Enabled(s, e)
  {
    match e
    case DoDeliver(job, _) => Some(KeyOf(job))
    case DoDone(r) => s.inFlight[r].lane
    case _ => None
  }

  lemma QueuedAlike(s: State, key: LaneKey)
    requires QueuesOK(s.lanes, s.known, s.launched) && Books(s) && key in s.lanes && s.lanes[key].queue != []
    ensures s.lanes[key].queue[0].id in s.dropped <==> s.lanes[key].queue[0].id in s.gone
  {
    var job := s.lanes[key].queue[0];
    assert QueueOK(s.lanes[key].queue, key, s.known, s.launched);
    assert Waiting(s.lanes, s.known, job.id);
  }

  /** What advancing a lane does to the others, the line and the turns started: it touches
      no other lane and cancels nothing; with a slot free it starts exactly its next turn,
      without one it starts nothing and at most joins the line. */
  ghost predicate Advanced(s: State, s': State, key: LaneKey) {
    && s'.gone == s.gone
    && (forall k :: k != key ==> QueueOf(s'.lanes, k) == QueueOf(s.lanes, k))
    && (if SlotFree(s)
        then s'.parked == s.parked && s'.starts == s.starts + NextTurn(key, QueueOf(s.lanes, key), s.gone)
        else s'.starts == s.starts && !SlotFree(s') && (s'.parked == s.parked || s'.parked == s.parked + [key]))
  }

  lemma {:induction false} LaneNextTurns(s: State, key: LaneKey)
    requires Core(s, Some(key)) && key in s.lanes
    ensures Advanced(s, LaneNext(s, key), key)
    decreases |s.lanes[key].queue|
  {
    hide Core, Advanced;
    QueuesAlike(s, key);
    if s.lanes[key].queue == [] {
      RetiredTurn(s, key);
    } else if s.lanes[key].queue[0].id in s.dropped {
      DiscardKeeps(s, key);
      LaneNextTurns(Discard(s, key), key);
      DiscardedFirst(s, LaneNext(s, key), key);
    } else if !SlotFree(s) {
      ParkedTurn(s, key);
    } else {
      StartedTurn(s, key);
    }
  }

  lemma RetiredTurn(s: State, key: LaneKey)
    requires key in s.lanes && s.lanes[key].queue == []
    ensures Advanced(s, s.(lanes := s.lanes - {key}), key)
  {
    assert s.starts + [] == s.starts;
  }

  lemma ParkedTurn(s: State, key: LaneKey)
    requires key in s.lanes && !SlotFree(s)
    ensures Advanced(s, Park(s, key), key)
  {
  }

  lemma StartedTurn(s: State, key: LaneKey)
    requires key in s.lanes && s.lanes[key].queue != [] && s.lanes[key].queue[0].id !in s.gone && SlotFree(s)
    ensures Advanced(s, StartTurn(s, key), key)
  {
  }

  lemma DiscardedFirst(s: State, s': State, key: LaneKey)
    requires key in s.lanes && s.lanes[key].queue != [] && s.lanes[key].queue[0].id in s.gone
    requires Advanced(Discard(s, key), s', key)
    ensures Advanced(s, s', key)
  {
  }

  lemma QueuesAlike(s: State, key: LaneKey)
    requires Core(s, Some(key)) && key in s.lanes
    ensures s.lanes[key].queue != [] ==> (s.lanes[key].queue[0].id in s.dropped <==> s.lanes[key].queue[0].id in s.gone)
  {
    if s.lanes[key].queue != [] { QueuedAlike(s, key); }
  }

  lemma {:induction false} SameLine(lanes: map<LaneKey, Lane>, lanes': map<LaneKey, Lane>, gone: set<RunId>,
                                    line: seq<LaneKey>)
    requires forall i :: 0 <= i < |line| ==> QueueOf(lanes', line[i]) == QueueOf(lanes, line[i])
    ensures TurnsOfLine(lanes', gone, line) == TurnsOfLine(lanes, gone, line)
  {
    if line != [] { SameLine(lanes, lanes', gone, line[1..]); }
  }

  lemma ParkedOnce(s: State, x: Option<LaneKey>)
    requires Core(s, x)
    ensures Distinct(s.parked)
  {
  }

  /** The first lane in line took its turn and left the line; nothing else moved. */
  ghost predicate FirstServed(s: State, s': State) {
    && s.parked != [] && s'.gone == s.gone && s'.parked == s.parked[1..]
    && s'.starts == s.starts + NextTurn(s.parked[0], QueueOf(s.lanes, s.parked[0]), s.gone)
    && forall k :: k != s.parked[0] ==> QueueOf(s'.lanes, k) == QueueOf(s.lanes, k)
  }

  /** The first `n` lanes in line took their turns, in the order they stood, and left the
      line; the rest of it is as it was. */
  ghost predicate LineServed(s: State, s': State, n: nat) {
    && n <= |s.parked| && s'.parked == s.parked[n..]
    && s'.starts == s.starts + TurnsOfLine(s.lanes, s.gone, s.parked[..n])
  }

  /** Free slots go to the lanes at the front of the line. */
  lemma {:induction false} KickTakesTheOldest(s: State) returns (n: nat)
    requires Core(s, None)
    ensures LineServed(s, KickParked(s), n) && (!SlotFree(s) ==> n == 0)
    decreases |s.parked|
  {
    hide Core, LineServed, FirstServed, LaneNext;
    ParkedOnce(s, None);
    if s.parked != [] && SlotFree(s) {
      var s1 := LaneNext(Unpark(s), s.parked[0]);
      UnparkKeeps(s);
      FirstInLine(s);
      LaneNextKeeps(Unpark(s), s.parked[0]);
      ShorterLine(s, s1);
      var n' := KickTakesTheOldest(s1);
      n := n' + 1;
      OneMoreServed(s, s1, KickParked(s1), n');
    } else {
      n := 0;
      NobodyServed(s);
    }
  }

  lemma ShorterLine(s: State, s': State)
    requires FirstServed(s, s')
    ensures |s'.parked| < |s.parked|
  {
  }

  lemma NobodyServed(s: State)
    ensures LineServed(s, s, 0)
  {
    assert s.starts + [] == s.starts && s.parked[..0] == [];
  }

  lemma OneMoreServed(s: State, s1: State, s2: State, n: nat)
    requires Distinct(s.parked) && FirstServed(s, s1) && LineServed(s1, s2, n)
    ensures LineServed(s, s2, n + 1)
  {
    hide TurnsOfLine, NextTurn;
    LineStep(s.lanes, s1.lanes, s.gone, s.parked, n, s.starts, s1.starts, s2.starts);
  }

  lemma NobodyInLine(lanes: map<LaneKey, Lane>, gone: set<RunId>)
    ensures TurnsOfLine(lanes, gone, []) == []
  {
  }

  lemma SameQueues(s: State, s1: State, s': State, key: LaneKey)
    requires Advanced(s1, s', key) && s1.gone == s.gone && s1.starts == s.starts
    requires forall k: LaneKey :: QueueOf(s1.lanes, k) == QueueOf(s.lanes, k)
    ensures s'.gone == s.gone && forall k :: k != key ==> QueueOf(s'.lanes, k) == QueueOf(s.lanes, k)
    ensures SlotFree(s1) ==>
              s'.starts == s.starts + NextTurn(key, QueueOf(s.lanes, key), s.gone) && s'.parked == s1.parked
    ensures !SlotFree(s1) ==>
              s'.starts == s.starts && !SlotFree(s') && (s'.parked == s1.parked || s'.parked == s1.parked + [key])
  {
    hide NextTurn;
  }

  lemma FirstInLine(s: State)
    requires s.parked != [] && s.parked[0] in s.lanes && Core(Unpark(s), Some(s.parked[0])) && SlotFree(s)
    ensures FirstServed(s, LaneNext(Unpark(s), s.parked[0]))
  {
    hide Core, LaneNext, NextTurn, Advanced;
    LaneNextTurns(Unpark(s), s.parked[0]);
    SameQueues(s, Unpark(s), LaneNext(Unpark(s), s.parked[0]), s.parked[0]);
  }

  lemma LineStep(lanes: map<LaneKey, Lane>, lanes': map<LaneKey, Lane>, gone: set<RunId>, line: seq<LaneKey>, n: nat,
                 starts: seq<Turn>, starts': seq<Turn>, all: seq<Turn>)
    requires Distinct(line) && n < |line| && forall k :: k != line[0] ==> QueueOf(lanes', k) == QueueOf(lanes, k)
    requires starts' == starts + NextTurn(line[0], QueueOf(lanes, line[0]), gone)
    requires all == starts' + TurnsOfLine(lanes', gone, line[1..][..n])
    ensures line[1..][n..] == line[n + 1..] && all == starts + TurnsOfLine(lanes, gone, line[..n + 1])
  {
    var rest := line[1..][..n];
    assert forall i :: 0 <= i < |rest| ==> rest[i] == line[i + 1];
    SameLine(lanes, lanes', gone, rest);
    assert line[..n + 1][1..] == rest && line[..n + 1][0] == line[0];
    var first := NextTurn(line[0], QueueOf(lanes, line[0]), gone);
    assert (starts + first) + TurnsOfLine(lanes, gone, rest) == starts + (first + TurnsOfLine(lanes, gone, rest));
  }

  /** Lanes that wait for a slot get it in the order they began to wait. In any step the
      lanes that leave the line are exactly the first `n`, and they leave it for good; the
      others keep their places, with at most the step's own lane joining behind them; and
      the turns started are the own lane's, if it has one to take, and then those of the
      lanes that left, in the order they stood. */
  lemma NoParkedLaneIsOvertaken(s: State, e: Step) returns (n: nat, own: seq<Turn>)
    requires Inv(s) && Enabled(s, e)
    ensures var s' := Apply(s, e);
            && n <= |s.parked|
            && (s'.parked == s.parked[n..]
                || (n == 0 && OwnLane(s, e).Some? && s'.parked == s.parked + [OwnLane(s, e).value]))
            && (forall i :: 0 <= i < n ==> s.parked[i] !in s'.parked)
            && s'.starts == s.starts + own + TurnsOfLine(s.lanes, s.gone, s.parked[..n])
    ensures own == [] || (|own| == 1 && OwnLane(s, e) == Some(own[0].lane))
  {
    hide Core, TurnsOfLine, Done;
    n, own := 0, [];
    NobodyInLine(s.lanes, s.gone);
    assert s.parked[0..] == s.parked && s.starts + [] == s.starts;
    if e.DoDeliver? {
      own := DeliverLine(s, e.job, e.hook);
    } else if e.DoDone? {
      n, own := DoneLine(s, e.run);
    }
  }

  lemma NextTurnIsOne(key: LaneKey, q: seq<Job>, gone: set<RunId>)
    ensures var t := NextTurn(key, q, gone); t == [] || (|t| == 1 && t[0].lane == key)
    ensures NextTurn(key, q, gone) != [] <==> HasWork(q, gone)
  {
    if q != [] {
      NextTurnIsOne(key, q[1..], gone);
      if HasWork(q[1..], gone) {
        var i :| 0 <= i < |q[1..]| && q[1..][i].id !in gone;
        assert q[i + 1].id !in gone;
      }
      if HasWork(q, gone) && q[0].id in gone {
        var i :| 0 <= i < |q| && q[i].id !in gone;
        assert q[1..][i - 1].id !in gone;
      }
    }
  }

  lemma DeliverLine(s: State, job: Job, hook: bool) returns (own: seq<Turn>)
    requires Inv(s) && job.id !in s.known
    ensures var s' := Deliver(s, job, hook).0;
            && (s'.parked == s.parked || s'.parked == s.parked + [KeyOf(job)])
            && s'.starts == s.starts + own
    ensures own == [] || (|own| == 1 && own[0].lane == KeyOf(job))
  {
    hide Core, LaneNext, NextTurn;
    own := [];
    if s.running && !JoinsActive(s, job) && HasRoom(s) && KeyOf(job) !in s.lanes {
      var key, s1 := KeyOf(job), Append(s, job);
      AppendKeeps(s, job);
      LaneNextTurns(s1, key);
      NextTurnIsOne(key, QueueOf(s1.lanes, key), s1.gone);
      if SlotFree(s1) { own := NextTurn(key, QueueOf(s1.lanes, key), s1.gone); }
    }
  }

  /** A lane whose run is done goes before the line: it takes its next turn, or, when no
      slot is free, nobody takes any and it joins the line if it has work. */
  ghost predicate OwnFirst(s: State, s': State, key: LaneKey, own: seq<Turn>, free: bool) {
    && s'.gone == s.gone && s'.starts == s.starts + own
    && (own == [] || (|own| == 1 && own[0].lane == key))
    && (forall k :: k != key ==> QueueOf(s'.lanes, k) == QueueOf(s.lanes, k))
    && (if free then s'.parked == s.parked
        else !SlotFree(s') && (s'.parked == s.parked || s'.parked == s.parked + [key]))
  }

  lemma OwnLaneFirst(s: State, s1: State, key: LaneKey) returns (own: seq<Turn>)
    requires Core(s1, Some(key)) && key in s1.lanes && s1.gone == s.gone && s1.starts == s.starts &&
             s1.parked == s.parked
    requires forall k: LaneKey :: QueueOf(s1.lanes, k) == QueueOf(s.lanes, k)
    ensures OwnFirst(s, LaneNext(s1, key), key, own, SlotFree(s1))
  {
    hide Core, LaneNext, Advanced;
    LaneNextTurns(s1, key);
    SameQueues(s, s1, LaneNext(s1, key), key);
    NextTurnIsOne(key, QueueOf(s.lanes, key), s.gone);
    own := if SlotFree(s1) then NextTurn(key, QueueOf(s.lanes, key), s.gone) else [];
    assert s.starts + [] == s.starts;
  }

  lemma LeftForGood(line: seq<LaneKey>, n: nat)
    requires Distinct(line) && n <= |line|
    ensures forall i :: 0 <= i < n ==> line[i] !in line[n..]
  {
  }

  /** What one step does to the line, when `lane` is its own. */
  ghost predicate InTurn(s: State, s': State, lane: Option<LaneKey>, n: nat, own: seq<Turn>) {
    && n <= |s.parked|
    && (s'.parked == s.parked[n..] || (n == 0 && lane.Some? && s'.parked == s.parked + [lane.value]))
    && (forall i :: 0 <= i < n ==> s.parked[i] !in s'.parked)
    && s'.starts == s.starts + own + TurnsOfLine(s.lanes, s.gone, s.parked[..n])
    && (own == [] || (|own| == 1 && lane == Some(own[0].lane)))
  }

  lemma OwnThenLine(s: State, s1: State, s2: State, key: LaneKey, own: seq<Turn>, free: bool, n: nat)
    requires Distinct(s.parked) && (forall i :: 0 <= i < |s.parked| ==> s.parked[i] != key)
    requires OwnFirst(s, s1, key, own, free) && LineServed(s1, s2, n) && (!SlotFree(s1) ==> n == 0)
    ensures InTurn(s, s2, Some(key), n, own)
  {
    hide TurnsOfLine;
    NobodyInLine(s.lanes, s.gone);
    NobodyInLine(s1.lanes, s.gone);
    if n > 0 {
      SameLine(s.lanes, s1.lanes, s.gone, s.parked[..n]);
      LeftForGood(s.parked, n);
    }
  }

  lemma LineAlone(s: State, s1: State, s2: State, n: nat)
    requires Distinct(s.parked) && s1.parked == s.parked && s1.lanes == s.lanes && s1.gone == s.gone &&
             s1.starts == s.starts
    requires LineServed(s1, s2, n)
    ensures InTurn(s, s2, None, n, [])
  {
    hide TurnsOfLine;
    LeftForGood(s.parked, n);
    assert s.starts + [] == s.starts;
  }

  lemma DoneLine(s: State, r: RunId) returns (n: nat, own: seq<Turn>)
    requires Inv(s) && InPhase(s, r, Over)
    ensures InTurn(s, Done(s, r), s.inFlight[r].lane, n, own)
  {
    hide Core, InTurn, LineServed, OwnFirst, LaneNext, KickParked, NoWaste;
    var lane, s1 := s.inFlight[r].lane, Leave(s, r);
    ParkedOnce(s, None);
    LeaveKeeps(s, r);
    own := [];
    if lane.Some? {
      NotInLine(s, lane.value);
      var s2 := Vacate(s1, lane.value);
      own := OwnLaneFirst(s, s2, lane.value);
      LaneNextKeeps(s2, lane.value);
      n := KickTakesTheOldest(LaneNext(s2, lane.value));
      OwnThenLine(s, LaneNext(s2, lane.value), Done(s, r), lane.value, own, SlotFree(s2), n);
    } else {
      n := KickTakesTheOldest(s1);
      LineAlone(s, s1, Done(s, r), n);
    }
  }

  lemma NotInLine(s: State, key: LaneKey)
    requires Core(s, None) && key in s.lanes && s.lanes[key].active.Some?
    ensures forall i :: 0 <= i < |s.parked| ==> s.parked[i] != key
  {
  }
}
