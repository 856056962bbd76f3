/** What a restart promises, from whatever rows the previous process left. */
module RecoveryTheorems {
  import opened Vocabulary
  import Record
  import B = BrokerSpec
  import BrokerTheorems
  import RecordRefinement
  import opened RecoverySpec

  // ---- closing failed runs -----------------------------------------------------------------

  lemma ExplainedHasError(row: Stored, code: FailCode)
    ensures Record.Holds(Explained(row, code).log, RunError)
    ensures Explained(row, code) == row.(log := Explained(row, code).log) && row.log <= Explained(row, code).log
  {
    if !Record.Holds(row.log, RunError) {
      var log := Explained(row, code).log;
      assert HasType(log[|row.log|].event, RunError);
    }
  }

  /** The number a terminal event gets is past every number in the log. */
  lemma TerminalEventComesLast(row: Stored, code: FailCode)
    requires !Record.Holds(row.log, RunError)
    ensures var log := Explained(row, code).log;
            && |log| == |row.log| + 1 && log[..|row.log|] == row.log
            && log[|row.log|].event == Record.RunErrorOf(code, "")
            && forall i :: 0 <= i < |row.log| ==> log[i].seqNo < log[|row.log|].seqNo
  {
    hide Record.RunErrorOf;
  }

  function ExplainAll(rows: Table, ids: seq<RunId>, code: FailCode): Table {
    map r | r in rows :: if r in ids then Explained(rows[r], code) else rows[r]
  }

  lemma {:induction false} CloseEachIs(s: System, ids: seq<RunId>, code: FailCode)
    requires forall i :: 0 <= i < |ids| ==> ids[i] in s.rows && ids[i] !in s.broker.runs
    ensures CloseEach(s, ids, code) == s.(rows := ExplainAll(s.rows, ids, code))
    decreases |ids|
  {
    hide Explained, ExplainAll;
    if ids == [] {
      ExplainNone(s.rows, code);
    } else {
      CloseEachIs(Close(s, ids[0], code), ids[1..], code);
      ExplainFirst(s.rows, ids, code);
    }
  }

  lemma ExplainNone(rows: Table, code: FailCode)
    ensures ExplainAll(rows, [], code) == rows
  {
  }

  lemma ExplainFirst(rows: Table, ids: seq<RunId>, code: FailCode)
    requires ids != [] && ids[0] in rows
    ensures ExplainAll(rows[ids[0] := Explained(rows[ids[0]], code)], ids[1..], code) == ExplainAll(rows, ids, code)
  {
    hide Explained;
    ExplainedTwice(rows[ids[0]], code);
    assert ids == [ids[0]] + ids[1..];
  }

  lemma ExplainedTwice(row: Stored, code: FailCode)
    ensures Explained(Explained(row, code), code) == Explained(row, code)
  {
    ExplainedHasError(row, code);
  }

  lemma {:induction false} OrphansAre(rows: Table, ids: seq<RunId>, r: RunId)
    ensures r in OrphansOf(rows, ids) <==> r in ids && r in rows && Orphan(rows[r].status)
  {
    if ids != [] {
      var n := |ids| - 1;
      OrphansAre(rows, ids[..n], r);
      assert ids == ids[..n] + [ids[n]];
    }
  }

  // ---- taking back what waited ---------------------------------------------------------------

  predicate KeepsUp(rows: Table, kept: seq<RunId>, r: RunId)
    requires r in rows
  {
    rows[r].addressed.None? || rows[r].addressed.value in kept
  }

  /** Of the first `n` waiting runs, those that are not interjections on a lost run. */
  function Kept(rows: Table, waiting: seq<RunId>, n: nat): seq<RunId>
    requires n <= |waiting| && forall i :: 0 <= i < |waiting| ==> waiting[i] in rows
  {
    if n == 0 then []
    else
      var before := Kept(rows, waiting, n - 1);
      before + if KeepsUp(rows, before, waiting[n - 1]) then [waiting[n - 1]] else []
  }

  function Lost(rows: Table, waiting: seq<RunId>, n: nat): seq<RunId>
    requires n <= |waiting| && forall i :: 0 <= i < |waiting| ==> waiting[i] in rows
  {
    if n == 0 then []
    else
      Lost(rows, waiting, n - 1)
      + if KeepsUp(rows, Kept(rows, waiting, n - 1), waiting[n - 1]) then [] else [waiting[n - 1]]
  }

  /** The runs of one thread, as its owner's inbox holds them. */
  function QueuedOn(rows: Table, ids: seq<RunId>, t: ThreadId): seq<B.Message>
    requires forall i :: 0 <= i < |ids| ==> ids[i] in rows
  {
    if ids == [] then []
    else
      var n := |ids| - 1;
      QueuedOn(rows, ids[..n], t) + if rows[ids[n]].thread == t then [B.Queued(ids[n])] else []
  }

  function InboxOf(s: B.State, t: ThreadId): seq<B.Message> {
    if t in s.threads then s.threads[t].inbox else []
  }

  lemma {:induction false} KeptWithin(rows: Table, waiting: seq<RunId>, n: nat)
    requires n <= |waiting| && forall i :: 0 <= i < |waiting| ==> waiting[i] in rows
    ensures forall r :: r in waiting[..n] <==> r in Kept(rows, waiting, n) || r in Lost(rows, waiting, n)
    ensures forall i :: 0 <= i < |Kept(rows, waiting, n)| ==> Kept(rows, waiting, n)[i] in rows
    ensures forall i :: 0 <= i < |Lost(rows, waiting, n)| ==> Lost(rows, waiting, n)[i] in rows
  {
    if n > 0 {
      KeptWithin(rows, waiting, n - 1);
      assert waiting[..n] == waiting[..n - 1] + [waiting[n - 1]];
      var kept, lost := Kept(rows, waiting, n), Lost(rows, waiting, n);
      forall i | 0 <= i < |kept| ensures kept[i] in rows { assert kept[i] in kept; }
    }
  }

  /** A run as its row has it, waiting and with nothing said about it yet. */
  predicate AsStored(run: B.Run, row: Stored) {
    && run.thread == row.thread && run.agent == row.agent && run.addressed == row.addressed &&
         run.validInput == row.valid
    && B.Idle(run) && !run.cancelRequested && run.record == [] && run.posted == []
  }

  /** A broker that only ever took rows back: the ids in the order they were taken,
      one message in each owner's inbox for each, and nothing else. */
  ghost predicate Holding(rows: Table, s: B.State, kept: seq<RunId>) {
    && (forall i :: 0 <= i < |kept| ==> kept[i] in rows)
    && s.running && s.arrivals == kept && s.done == map[]
    && (forall r :: r in s.runs <==> r in kept)
    && (forall r :: r in s.runs ==> r in rows && AsStored(s.runs[r], rows[r]))
    && (forall t: ThreadId :: InboxOf(s, t) == QueuedOn(rows, kept, t))
    && BrokerTheorems.Reachable(s)
  }

  lemma {:induction false} QueuedOnNames(rows: Table, ids: seq<RunId>, t: ThreadId, m: B.Message)
    requires (forall i :: 0 <= i < |ids| ==> ids[i] in rows) && m in QueuedOn(rows, ids, t)
    ensures m.Queued? && m.run in ids
  {
    var n := |ids| - 1;
    assert ids == ids[..n] + [ids[n]];
    if m in QueuedOn(rows, ids[..n], t) { QueuedOnNames(rows, ids[..n], t, m); }
  }

  lemma EnqueueHolds(rows: Table, s: B.State, kept: seq<RunId>, r: RunId)
    requires Holding(rows, s, kept) && r in rows && r !in kept
    ensures var row := rows[r];
            Holding(rows, B.Enqueue(s, r, row.agent, row.thread, row.addressed, row.valid), kept + [r])
  {
    EnqueueReaches(rows, s, kept, r);
    hide BrokerTheorems.Reachable;
    var row := rows[r];
    var s' := B.Enqueue(s, r, row.agent, row.thread, row.addressed, row.valid);
    forall t: ThreadId ensures InboxOf(s', t) == QueuedOn(rows, kept + [r], t) {
      assert InboxOf(s, t) == QueuedOn(rows, kept, t);
      QueuedOneMore(rows, kept, r, t);
    }
  }

  lemma QueuedOneMore(rows: Table, ids: seq<RunId>, r: RunId, t: ThreadId)
    requires (forall i :: 0 <= i < |ids| ==> ids[i] in rows) && r in rows
    ensures var before := QueuedOn(rows, ids, t);
            QueuedOn(rows, ids + [r], t) == if rows[r].thread == t then before + [B.Queued(r)] else before
  {
    assert (ids + [r])[..|ids|] == ids;
  }

  lemma EnqueueReaches(rows: Table, s: B.State, kept: seq<RunId>, r: RunId)
    requires Holding(rows, s, kept) && r in rows && r !in kept
    ensures var row := rows[r];
            BrokerTheorems.Reachable(B.Enqueue(s, r, row.agent, row.thread, row.addressed, row.valid))
  {
    hide BrokerTheorems.Reachable;
    var row := rows[r];
    forall t, m | t in s.threads && m in s.threads[t].inbox ensures m.Poke? || m.run != r {
      assert InboxOf(s, t) == QueuedOn(rows, kept, t);
      QueuedOnNames(rows, kept, t, m);
    }
    var e := B.DoEnqueue(r, row.agent, row.thread, row.addressed, row.valid);
    assert B.Enabled(s, e);
    BrokerTheorems.StepReaches(s, e);
  }

  /** Where recovery stands: what the broker holds, what was given up on, the rows. */
  ghost predicate Standing(rows: Table, p: Recovering, kept: seq<RunId>, lost: seq<RunId>) {
    Holding(rows, p.broker, kept) && p.lost == lost && p.rows == FailAll(rows, lost)
  }

  lemma TakeBackNone(rows: Table, broker: B.State, waiting: seq<RunId>)
    requires OldestFirst(rows, waiting) && Holding(rows, broker, [])
    ensures Standing(rows, TakeBackFirst(rows, broker, waiting, 0), Kept(rows, waiting, 0), Lost(rows, waiting, 0))
  {
    hide Holding;
    FailNone(rows);
  }

  lemma {:induction false} TakeBackIs(rows: Table, broker: B.State, waiting: seq<RunId>, n: nat)
    requires n <= |waiting| && OldestFirst(rows, waiting) && Holding(rows, broker, [])
    ensures Standing(rows, TakeBackFirst(rows, broker, waiting, n), Kept(rows, waiting, n), Lost(rows, waiting, n))
  {
    hide Standing, Holding, TakeBack, KeepsUp, Older;
    if n == 0 {
      TakeBackNone(rows, broker, waiting);
    } else {
      TakeBackIs(rows, broker, waiting, n - 1);
      NotEarlier(rows, waiting, n - 1);
      TakeBackOne(rows, TakeBackFirst(rows, broker, waiting, n - 1),
                  Kept(rows, waiting, n - 1), Lost(rows, waiting, n - 1), waiting[n - 1]);
    }
  }

  lemma FailNone(rows: Table)
    ensures FailAll(rows, []) == rows
  {
  }

  lemma TakeBackOne(rows: Table, p: Recovering, kept: seq<RunId>, lost: seq<RunId>, r: RunId)
    requires Standing(rows, p, kept, lost) && r in rows && r !in kept && r !in lost
    ensures r in p.rows
    ensures Standing(rows, TakeBack(p, r),
                     kept + (if KeepsUp(rows, kept, r) then [r] else []),
                     lost + (if KeepsUp(rows, kept, r) then [] else [r]))
  {
    HeldRuns(rows, p.broker, kept);
    hide Holding;
    assert p.rows[r] == rows[r];
    if KeepsUp(rows, kept, r) {
      EnqueueHolds(rows, p.broker, kept, r);
      assert lost + [] == lost;
    } else {
      assert kept + [] == kept;
      FailOneMore(rows, lost, r);
    }
  }

  lemma HeldRuns(rows: Table, s: B.State, kept: seq<RunId>)
    requires Holding(rows, s, kept)
    ensures forall r :: r in s.runs <==> r in kept
  {
  }

  lemma FailOneMore(rows: Table, lost: seq<RunId>, r: RunId)
    requires r in rows
    ensures FailAll(rows, lost)[r := rows[r].(status := Record.Failed)] == FailAll(rows, lost + [r])
  {
  }

  lemma NotEarlier(rows: Table, waiting: seq<RunId>, n: nat)
    requires n < |waiting| && OldestFirst(rows, waiting)
    ensures waiting[n] !in Kept(rows, waiting, n) && waiting[n] !in Lost(rows, waiting, n)
  {
    forall i | 0 <= i < n ensures waiting[i] != waiting[n] {
      assert Older(rows, waiting[i], waiting[n]);
    }
    assert waiting[n] !in waiting[..n];
    KeptWithin(rows, waiting, n);
  }

  // ---- who is kept, and in what order -------------------------------------------------------------

  lemma {:induction false} KeptOldestFirst(rows: Table, waiting: seq<RunId>, n: nat)
    requires n <= |waiting| && OldestFirst(rows, waiting)
    ensures OldestFirst(rows, Kept(rows, waiting, n))
  {
    if n > 0 {
      KeptOldestFirst(rows, waiting, n - 1);
      KeptWithin(rows, waiting, n - 1);
      var before, r := Kept(rows, waiting, n - 1), waiting[n - 1];
      forall i | 0 <= i < |before| ensures before[i] in rows && Older(rows, before[i], r) {
        assert before[i] in before && before[i] in waiting[..n - 1];
        var j :| 0 <= j < n - 1 && waiting[j] == before[i];
        assert Older(rows, waiting[j], waiting[n - 1]);
      }
    }
  }

  /** Once kept, kept; and nothing is kept later than its place. */
  lemma {:induction false} KeptGrows(rows: Table, waiting: seq<RunId>, i: nat, n: nat)
    requires i < n <= |waiting| && OldestFirst(rows, waiting)
    ensures forall x :: x in Kept(rows, waiting, i) ==> x in Kept(rows, waiting, n)
    ensures waiting[i] in Kept(rows, waiting, n) <==> KeepsUp(rows, Kept(rows, waiting, i), waiting[i])
    ensures forall x :: x in Kept(rows, waiting, n) && x in rows && Older(rows, x, waiting[i]) ==>
            x in Kept(rows, waiting, i)
    decreases n
  {
    hide KeepsUp;
    var r := waiting[i];
    if n == i + 1 {
      NotEarlier(rows, waiting, i);
    } else {
      KeptGrows(rows, waiting, i, n - 1);
      var last := waiting[n - 1];
      assert Older(rows, r, last);
      assert last != r && !Older(rows, last, r);
    }
  }

  /** A waiting run is kept exactly when it joins nobody, or joins a kept run older than it. */
  lemma KeptExactlyWhen(rows: Table, waiting: seq<RunId>, r: RunId)
    requires OldestFirst(rows, waiting) && r in waiting
    ensures r in Kept(rows, waiting, |waiting|) <==>
              || rows[r].addressed.None?
              || (var a := rows[r].addressed.value;
                  a in Kept(rows, waiting, |waiting|) && a in rows && Older(rows, a, r))
  {
    var n := |waiting|;
    var i :| 0 <= i < n && waiting[i] == r;
    KeptGrows(rows, waiting, i, n);
    if rows[r].addressed.Some? && rows[r].addressed.value in Kept(rows, waiting, i) {
      var a := rows[r].addressed.value;
      KeptWithin(rows, waiting, i);
      assert a in waiting[..i];
      var j :| 0 <= j < i && waiting[j] == a;
      assert Older(rows, waiting[j], waiting[i]);
    }
  }

  // ---- a whole start ---------------------------------------------------------------------------------

  /** A new process over whatever rows there are: `ids` lists them, and the broker is unused. */
  ghost predicate NewProcess(s: System, ids: seq<RunId>) {
    && !s.started && Distinct(ids) && (forall r :: r in ids <==> r in s.rows)
    && exists now, timeout: int, tolerance :: 0 < timeout && s.broker == B.Init(now, timeout, tolerance)
  }

  function ReapedRow(row: Stored): Stored {
    if Orphan(row.status) then Explained(row.(status := Record.Failed), OrphanedByRestart) else row
  }

  function ReapedRows(rows: Table): Table {
    map r | r in rows :: ReapedRow(rows[r])
  }

  lemma ReapedIs(s: System, ids: seq<RunId>)
    requires (forall r :: r in ids <==> r in s.rows) && s.broker.runs == map[]
    ensures Reaped(s, ids) == s.(rows := ReapedRows(s.rows))
  {
    hide Explained;
    var orphans := OrphansOf(s.rows, ids);
    forall r ensures r in orphans <==> r in s.rows && Orphan(s.rows[r].status) { OrphansAre(s.rows, ids, r); }
    assert forall i :: 0 <= i < |orphans| ==> orphans[i] in orphans;
    CloseEachIs(s.(rows := FailAll(s.rows, orphans)), orphans, OrphanedByRestart);
    assert ExplainAll(FailAll(s.rows, orphans), orphans, OrphanedByRestart) == ReapedRows(s.rows);
  }

  lemma StartedBroker(s: System, ids: seq<RunId>, rows: Table)
    requires NewProcess(s, ids)
    ensures s.broker.runs == map[] && Holding(rows, B.Start(s.broker), [])
  {
    var now, timeout: int, tolerance :| 0 < timeout && s.broker == B.Init(now, timeout, tolerance);
    BrokerTheorems.InitIsReachable(now, timeout, tolerance);
    hide BrokerTheorems.Reachable;
    assert B.Enabled(s.broker, B.DoStart);
    BrokerTheorems.StepReaches(s.broker, B.DoStart);
  }

  /** The runs a start puts aside, and those it takes back, over the reaped rows. */
  function WaitingOf(s: System, ids: seq<RunId>): seq<RunId>
    requires Distinct(ids)
  {
    QueuedRuns(ReapedRows(s.rows), ids)
  }

  function KeptOf(s: System, ids: seq<RunId>): seq<RunId>
    requires Distinct(ids)
  {
    Kept(ReapedRows(s.rows), WaitingOf(s, ids), |WaitingOf(s, ids)|)
  }

  function LostOf(s: System, ids: seq<RunId>): seq<RunId>
    requires Distinct(ids)
  {
    Lost(ReapedRows(s.rows), WaitingOf(s, ids), |WaitingOf(s, ids)|)
  }

  function FinalRow(row: Stored, lost: bool): Stored {
    if lost then Explained(row.(status := Record.Failed), InterjectionTargetLost) else ReapedRow(row)
  }

  /** Where a start leaves everything. */
  lemma StartUpIs(s: System, ids: seq<RunId>)
    requires NewProcess(s, ids)
    ensures var s' := StartUp(s, ids);
            && s'.started && s'.rows.Keys == s.rows.Keys
            && Holding(ReapedRows(s.rows), s'.broker, KeptOf(s, ids))
            && s'.rows == ExplainAll(FailAll(ReapedRows(s.rows), LostOf(s, ids)), LostOf(s, ids),
                                     InterjectionTargetLost)
  {
    hide Holding, Explained, B.Start;
    var rows := ReapedRows(s.rows);
    StartedBroker(s, ids, rows);
    ReapedIs(s.(started := true), ids);
    var s1 := s.(started := true, rows := rows, broker := B.Start(s.broker));
    var waiting := WaitingOf(s, ids);
    var p := TakeBackFirst(rows, s1.broker, waiting, |waiting|);
    TakeBackIs(rows, s1.broker, waiting, |waiting|);
    HeldRuns(rows, p.broker, KeptOf(s, ids));
    LostAreNotHeld(rows, waiting, |waiting|);
    CloseEachIs(s1.(rows := p.rows, broker := p.broker), p.lost, InterjectionTargetLost);
  }

  lemma {:induction false} LostAreNotHeld(rows: Table, waiting: seq<RunId>, n: nat)
    requires n <= |waiting| && OldestFirst(rows, waiting)
    ensures forall i :: 0 <= i < |Lost(rows, waiting, n)| ==>
              Lost(rows, waiting, n)[i] in rows && Lost(rows, waiting, n)[i] !in Kept(rows, waiting, n)
  {
    if n > 0 {
      LostAreNotHeld(rows, waiting, n - 1);
      NotEarlier(rows, waiting, n - 1);
    }
  }

  lemma TrackedIsKept(s: System, ids: seq<RunId>)
    requires NewProcess(s, ids)
    ensures forall r :: r in StartUp(s, ids).broker.runs <==> r in KeptOf(s, ids)
  {
    hide StartUp, Holding;
    StartUpIs(s, ids);
    HeldRuns(ReapedRows(s.rows), StartUp(s, ids).broker, KeptOf(s, ids));
  }

  /** One row, before and after; and which rows are kept and which are lost. */
  lemma RowAfter(s: System, ids: seq<RunId>, r: RunId)
    requires NewProcess(s, ids) && r in s.rows
    ensures var s' := StartUp(s, ids);
            && r in s'.rows && s'.rows[r] == FinalRow(s.rows[r], r in LostOf(s, ids))
            && (r in s'.broker.runs <==> r in KeptOf(s, ids))
    ensures r in KeptOf(s, ids) || r in LostOf(s, ids) <==> s.rows[r].status.Queued?
    ensures !(r in KeptOf(s, ids) && r in LostOf(s, ids))
  {
    hide Explained, Holding, StartUp;
    StartUpIs(s, ids);
    TrackedIsKept(s, ids);
    var rows, waiting := ReapedRows(s.rows), WaitingOf(s, ids);
    KeptWithin(rows, waiting, |waiting|);
    LostAreNotHeld(rows, waiting, |waiting|);
    assert waiting[..|waiting|] == waiting;
    assert rows[r].status.Queued? <==> s.rows[r].status.Queued? by { ReapedStatus(s.rows[r]); }
  }

  lemma ReapedStatus(row: Stored)
    ensures ReapedRow(row).status == if Orphan(row.status) then Record.Failed else row.status
    ensures row.status.Queued? ==> ReapedRow(row) == row
    ensures Orphan(row.status) ==> Record.Holds(ReapedRow(row).log, RunError)
    ensures row.log <= ReapedRow(row).log
    ensures ReapedRow(row) == row.(status := ReapedRow(row).status, log := ReapedRow(row).log)
  {
    ExplainedHasError(row.(status := Record.Failed), OrphanedByRestart);
  }

  lemma FinalStatus(row: Stored, lost: bool)
    ensures FinalRow(row, lost).status == if lost || Orphan(row.status) then Record.Failed else row.status
    ensures lost || Orphan(row.status) ==> Record.Holds(FinalRow(row, lost).log, RunError)
    ensures !lost && !Orphan(row.status) ==> FinalRow(row, lost) == row
    ensures row.log <= FinalRow(row, lost).log
    ensures FinalRow(row, lost) == row.(status := FinalRow(row, lost).status, log := FinalRow(row, lost).log)
  {
    ReapedStatus(row);
    ExplainedHasError(row.(status := Record.Failed), InterjectionTargetLost);
  }

  /** After a start every run is over, or is queued and tracked; nothing else is tracked,
      and a run that was over is left exactly as it was. */
  lemma EveryRunIsOverOrTracked(s: System, ids: seq<RunId>, r: RunId)
    requires NewProcess(s, ids) && r in s.rows
    ensures var s' := StartUp(s, ids);
            && r in s'.rows
            && (Record.Terminal(s'.rows[r].status) || (s'.rows[r].status.Queued? && r in s'.broker.runs))
            && (r in s'.broker.runs ==> s'.rows[r].status.Queued? && s'.rows[r] == s.rows[r])
            && (Record.Terminal(s.rows[r].status) ==> s'.rows[r] == s.rows[r])
  {
    hide StartUp, FinalRow;
    RowAfter(s, ids, r);
    FinalStatus(s.rows[r], r in LostOf(s, ids));
  }

  lemma NothingElseIsTracked(s: System, ids: seq<RunId>)
    requires NewProcess(s, ids)
    ensures forall r :: r in StartUp(s, ids).broker.runs ==> r in s.rows
  {
    StartUpIs(s, ids);
  }

  /** A run that was not over before and has failed now says why. Exactly: a failed run's
      log has a RUN_ERROR if it had one, or if this start is what failed it. */
  lemma ReapedRunsAreExplained(s: System, ids: seq<RunId>, r: RunId)
    requires NewProcess(s, ids) && r in s.rows
    ensures var s' := StartUp(s, ids);
            && r in s'.rows && s.rows[r].log <= s'.rows[r].log
            && (Orphan(s.rows[r].status) ==> s'.rows[r].status.Failed? && Record.Holds(s'.rows[r].log, RunError))
            && (s'.rows[r].status.Failed? ==>
                  (Record.Holds(s'.rows[r].log, RunError) <==>
                   Record.Holds(s.rows[r].log, RunError) || !s.rows[r].status.Failed?))
  {
    hide StartUp, FinalRow, Record.Holds;
    RowAfter(s, ids, r);
    FinalStatus(s.rows[r], r in LostOf(s, ids));
  }

  /** The runs taken back are handed to the broker oldest first, and each thread's owner
      finds exactly its own, in that order. */
  lemma TakenBackInOrder(s: System, ids: seq<RunId>)
    requires NewProcess(s, ids)
    ensures var broker := StartUp(s, ids).broker;
            && OldestFirst(s.rows, broker.arrivals)
            && (forall r :: r in broker.runs <==> r in broker.arrivals)
            && forall t: ThreadId :: InboxOf(broker, t) == QueuedOn(s.rows, broker.arrivals, t)
  {
    StartUpIs(s, ids);
    var rows, broker := ReapedRows(s.rows), StartUp(s, ids).broker;
    hide StartUp, BrokerTheorems.Reachable, Kept, QueuedRuns;
    KeptOldestFirst(rows, WaitingOf(s, ids), |WaitingOf(s, ids)|);
    SameAges(s.rows, broker.arrivals);
    forall t: ThreadId ensures InboxOf(broker, t) == QueuedOn(s.rows, broker.arrivals, t) {
      SameThreads(s.rows, broker.arrivals, t);
    }
  }

  lemma SameAges(rows: Table, ids: seq<RunId>)
    requires OldestFirst(ReapedRows(rows), ids)
    ensures OldestFirst(rows, ids)
  {
    hide ReapedRow;
    forall r | r in rows ensures ReapedRow(rows[r]).createdAt == rows[r].createdAt { ReapedStatus(rows[r]); }
    forall i, j | 0 <= i < j < |ids| ensures Older(rows, ids[i], ids[j]) {
      assert Older(ReapedRows(rows), ids[i], ids[j]);
    }
  }

  lemma {:induction false} SameThreads(rows: Table, ids: seq<RunId>, t: ThreadId)
    requires forall i :: 0 <= i < |ids| ==> ids[i] in rows
    ensures QueuedOn(ReapedRows(rows), ids, t) == QueuedOn(rows, ids, t)
  {
    hide ReapedRow;
    if ids != [] {
      SameThreads(rows, ids[..|ids| - 1], t);
      ReapedStatus(rows[ids[|ids| - 1]]);
    }
  }

  /** A queued run is taken back exactly when it joins nobody, or joins a run that was
      taken back and is older; so no interjection is left naming an untracked target. */
  lemma InterjectionsKeepTheirTargets(s: System, ids: seq<RunId>, r: RunId)
    requires NewProcess(s, ids) && r in s.rows && s.rows[r].status.Queued?
    ensures var broker := StartUp(s, ids).broker;
            r in broker.runs <==>
              || s.rows[r].addressed.None?
              || (var a := s.rows[r].addressed.value; a in broker.runs && a in s.rows && Older(s.rows, a, r))
  {
    var rows, waiting := ReapedRows(s.rows), WaitingOf(s, ids);
    hide StartUp, ReapedRow, Kept;
    RowAfter(s, ids, r);
    TrackedIsKept(s, ids);
    ReapedStatus(s.rows[r]);
    assert r in waiting;
    KeptExactlyWhen(rows, waiting, r);
    if s.rows[r].addressed.Some? && s.rows[r].addressed.value in s.rows {
      ReapedStatus(s.rows[s.rows[r].addressed.value]);
    }
  }

  /** A run that is taken back is taken back as its row has it. */
  lemma TakenBackAsStored(s: System, ids: seq<RunId>, r: RunId)
    requires NewProcess(s, ids) && r in StartUp(s, ids).broker.runs
    ensures r in s.rows && AsStored(StartUp(s, ids).broker.runs[r], s.rows[r])
  {
    StartUpIs(s, ids);
    hide StartUp, BrokerTheorems.Reachable, Kept, QueuedRuns;
    ReapedStatus(s.rows[r]);
  }

  /** A row that gained its terminal event: one, numbered next, that says why. */
  ghost predicate GainedReason(row: Stored, row': Stored, code: FailCode) {
    && |row'.log| == |row.log| + 1 && row'.log[..|row.log|] == row.log
    && row'.log[|row.log|].seqNo == Record.LastSeq(row.log) + 1
    && Record.SaysWhy(row'.log[|row.log|].event, code, "")
  }

  /** What a start adds to a log, for every row: an orphan that had no RUN_ERROR gains one
      that names the restart; an interjection that lost its target one that names that; and
      no other log changes. */
  lemma ReapedRunsSayWhy(s: System, ids: seq<RunId>, r: RunId)
    requires NewProcess(s, ids) && r in s.rows
    ensures var row, s' := s.rows[r], StartUp(s, ids);
            var lost := row.status.Queued? && r !in s'.broker.runs;
            && r in s'.rows
            && if (lost || Orphan(row.status)) && !Record.Holds(row.log, RunError)
               then GainedReason(row, s'.rows[r], if lost then InterjectionTargetLost else OrphanedByRestart)
               else s'.rows[r].log == row.log
  {
    hide StartUp, GainedReason;
    RowAfter(s, ids, r);
    TrackedIsKept(s, ids);
    hide LostOf, KeptOf;
    FinalReason(s.rows[r], r in LostOf(s, ids));
  }

  lemma FinalReason(row: Stored, lost: bool)
    requires lost ==> row.status.Queued?
    ensures if (lost || Orphan(row.status)) && !Record.Holds(row.log, RunError)
            then GainedReason(row, FinalRow(row, lost), if lost then InterjectionTargetLost else OrphanedByRestart)
            else FinalRow(row, lost).log == row.log
  {
    hide Record.Holds;
  }

  /** A run its provider finished, and said so, is taken back by the next start and dispatched
      again exactly when the write of its offer had raised: its row then never left `queued`. */
  lemma AFinishedRunComesBackExactlyWhen(b: B.State, r: RunId, begun: Record.Kept, oks: seq<bool>, s: System,
                                         ids: seq<RunId>)
    requires BrokerTheorems.Reachable(b) && r in b.done && |oks| == |b.done[r].record| && RecordRefinement.Ready(begun)
    requires RecordRefinement.Completes(b.done[r].record)
    requires NewProcess(s, ids) && r in s.rows && s.rows[r].addressed.None?
    requires s.rows[r].status == Record.Replay(begun, b.done[r].record, oks).status
    ensures r in StartUp(s, ids).broker.runs <==> !oks[0]
  {
    RecordRefinement.FinishedStatus(b, r, begun, oks);
    hide StartUp, Record.Replay, BrokerTheorems.Reachable, RecordRefinement.EndsAs;
    EveryRunIsOverOrTracked(s, ids, r);
    if s.rows[r].status.Queued? { InterjectionsKeepTheirTargets(s, ids, r); }
  }

  /** What a start hands over is a broker like any other: everything proved of reachable
      brokers holds of it. */
  lemma TheBrokerIsReachable(s: System, ids: seq<RunId>)
    requires NewProcess(s, ids)
    ensures BrokerTheorems.Reachable(StartUp(s, ids).broker)
  {
    StartUpIs(s, ids);
  }

  /** A start that stops between failing the orphans and explaining them leaves runs that
      no later start explains: the exact condition above is not met by them. */
  lemma AStartCutShortLeavesARunUnexplained() returns (s: System, ids: seq<RunId>, r: RunId)
    ensures !s.started && ids == [r] && r in s.rows && Orphan(s.rows[r].status)
    ensures var cut := s.(rows := FailAll(s.rows, OrphansOf(s.rows, ids)));
            && NewProcess(cut, ids) && r in StartUp(cut, ids).rows
            && StartUp(cut, ids).rows[r].status.Failed? && !Record.Holds(StartUp(cut, ids).rows[r].log, RunError)
  {
    r := 7;
    ids := [r];
    var row := Stored(Record.Running, 0, 1, AgentRef(1, "agent"), None, true, []);
    s := System(false, map[r := row], B.Init(0, 1, None));
    OrphansAre(s.rows, ids, r);
    var cut := s.(rows := FailAll(s.rows, OrphansOf(s.rows, ids)));
    assert cut.broker == B.Init(0, 1, None) && 0 < 1;
    hide StartUp;
    ReapedRunsAreExplained(cut, ids, r);
    EveryRunIsOverOrTracked(cut, ids, r);
  }
}
