/** Restart: what `start` makes of the rows a previous process left behind. */
module RecoverySpec {
  import opened Vocabulary
  import Record
  import B = BrokerSpec

  /** A run's row, and its events. `valid` is whether its input still validates. */
  datatype Stored = Stored(status: Record.Status, createdAt: int, thread: ThreadId, agent: AgentRef,
                           addressed: Option<RunId>, valid: bool, log: seq<Record.Row>)

  type Table = map<RunId, Stored>

  datatype System = System(started: bool, rows: Table, broker: B.State)

  // ---- the event log ---------------------------------------------------------------------

  function Explained(row: Stored, code: FailCode): Stored {
    if Record.Holds(row.log, RunError) then row
    else row.(log := row.log + [Record.Row(Record.LastSeq(row.log) + 1, Record.RunErrorOf(code, ""))])
  }

  /** Gives a failed run its terminal event, through the broker if it still tracks the run. */
  function Close(s: System, r: RunId, code: FailCode): System {
    if r in s.broker.runs then s.(broker := B.Post(s.broker, r, B.Trusted(r, Fail(code, ""))))
    else if r in s.rows then s.(rows := s.rows[r := Explained(s.rows[r], code)])
    else s
  }

  function CloseEach(s: System, ids: seq<RunId>, code: FailCode): System
    decreases |ids|
  {
    if ids == [] then s else CloseEach(Close(s, ids[0], code), ids[1..], code)
  }

  // ---- what the previous process was holding ---------------------------------------------------

  predicate Orphan(status: Record.Status) {
    status.Offering? || status.Running? || status.Cancelling?
  }

  function OrphansOf(rows: Table, ids: seq<RunId>): seq<RunId> {
    if ids == [] then []
    else
      var n := |ids| - 1;
      OrphansOf(rows, ids[..n]) + if ids[n] in rows && Orphan(rows[ids[n]].status) then [ids[n]] else []
  }

  function FailAll(rows: Table, ids: seq<RunId>): Table {
    map r | r in rows :: if r in ids then rows[r].(status := Record.Failed) else rows[r]
  }

  // ---- what was only ever waiting ---------------------------------------------------------------

  /** Oldest first; two rows of one instant stand in the order of their ids. */
  predicate Older(rows: Table, a: RunId, b: RunId)
    requires a in rows && b in rows
  {
    rows[a].createdAt < rows[b].createdAt || (rows[a].createdAt == rows[b].createdAt && a < b)
  }

  ghost predicate OldestFirst(rows: Table, ids: seq<RunId>) {
    && (forall i :: 0 <= i < |ids| ==> ids[i] in rows)
    && forall i, j :: 0 <= i < j < |ids| ==> Older(rows, ids[i], ids[j])
  }

  function InsertByAge(rows: Table, ids: seq<RunId>, r: RunId): (out: seq<RunId>)
    requires r in rows && r !in ids && OldestFirst(rows, ids)
    ensures OldestFirst(rows, out) && forall x :: x in out <==> x in ids || x == r
    decreases |ids|
  {
    if ids == [] then [r]
    else
      var n := |ids| - 1;
      if Older(rows, ids[n], r) then
        assert forall i :: 0 <= i < n ==> Older(rows, ids[i], ids[n]);
        ids + [r]
      else
        assert ids == ids[..n] + [ids[n]];
        assert forall x :: x in ids[..n] ==> Older(rows, x, ids[n]);
        var inner := InsertByAge(rows, ids[..n], r);
        assert forall i :: 0 <= i < |inner| ==> inner[i] in inner && Older(rows, inner[i], ids[n]);
        inner + [ids[n]]
  }

  /** Every row still waiting for a provider, oldest first. */
  function QueuedRuns(rows: Table, ids: seq<RunId>): (out: seq<RunId>)
    requires Distinct(ids)
    ensures OldestFirst(rows, out)
    ensures forall r :: r in out <==> r in ids && r in rows && rows[r].status.Queued?
    decreases |ids|
  {
    if ids == [] then []
    else
      var n := |ids| - 1;
      var before := QueuedRuns(rows, ids[..n]);
      assert ids == ids[..n] + [ids[n]];
      if ids[n] in rows && rows[ids[n]].status.Queued? then InsertByAge(rows, before, ids[n]) else before
  }

  /** Recovery under way: the rows, the broker, and the interjections given up on. */
  datatype Recovering = Recovering(rows: Table, broker: B.State, lost: seq<RunId>)

  function TakeBack(p: Recovering, r: RunId): Recovering
    requires r in p.rows
  {
    var row := p.rows[r];
    if row.addressed.Some? && row.addressed.value !in p.broker.runs
    then Recovering(p.rows[r := row.(status := Record.Failed)], p.broker, p.lost + [r])
    else p.(broker := B.Enqueue(p.broker, r, row.agent, row.thread, row.addressed, row.valid))
  }

  /** The first `n` of `waiting` taken back. */
  function TakeBackFirst(rows: Table, broker: B.State, waiting: seq<RunId>, n: nat): (p: Recovering)
    requires n <= |waiting| && forall i :: 0 <= i < |waiting| ==> waiting[i] in rows
    ensures p.rows.Keys == rows.Keys
  {
    if n == 0 then Recovering(rows, broker, [])
    else TakeBack(TakeBackFirst(rows, broker, waiting, n - 1), waiting[n - 1])
  }

  function Reaped(s: System, ids: seq<RunId>): System {
    var orphans := OrphansOf(s.rows, ids);
    CloseEach(s.(rows := FailAll(s.rows, orphans)), orphans, OrphanedByRestart)
  }

  function Recovered(s: System, ids: seq<RunId>): System
    requires Distinct(ids)
  {
    var waiting := QueuedRuns(s.rows, ids);
    var p := TakeBackFirst(s.rows, s.broker, waiting, |waiting|);
    CloseEach(s.(rows := p.rows, broker := p.broker), p.lost, InterjectionTargetLost)
  }

  /** `ids` lists the table's rows. Only the first start does anything. */
  function StartUp(s: System, ids: seq<RunId>): System
    requires Distinct(ids)
  {
    if s.started then s
    else
      var s1 := Reaped(s.(started := true), ids);
      Recovered(s1.(broker := B.Start(s1.broker)), ids)
  }
}
