/** The restart as it runs: rows updated one at a time, runs handed to the broker object.
    Each method is proved to take the system exactly where `RecoverySpec` says. */
module Recovery {
  import opened Vocabulary
  import Record
  import B = BrokerSpec
  import Broker
  import opened RecoverySpec
  import RecoveryTheorems

  lemma {:induction false} OrphansAreDistinct(rows: Table, ids: seq<RunId>)
    requires Distinct(ids)
    ensures Distinct(OrphansOf(rows, ids))
  {
    if ids != [] {
      var n := |ids| - 1;
      OrphansAreDistinct(rows, ids[..n]);
      RecoveryTheorems.OrphansAre(rows, ids[..n], ids[n]);
    }
  }

  lemma {:induction false} CloseEachMore(s: System, ids: seq<RunId>, r: RunId, code: FailCode)
    ensures CloseEach(s, ids + [r], code) == Close(CloseEach(s, ids, code), r, code)
    decreases |ids|
  {
    hide Close;
    if ids == [] {
      assert ids + [r] == [r] && [r][1..] == [];
    } else {
      CloseEachMore(Close(s, ids[0], code), ids[1..], r, code);
      assert (ids + [r])[0] == ids[0] && (ids + [r])[1..] == ids[1..] + [r];
    }
  }

  class Funduq {
    /** The table's rows, listed; a query looks at each of them. */
    const ids: seq<RunId>
    const broker: Broker.RunBroker
    var started: bool
    var rows: Table

    ghost function Now(): System
      reads this, broker
    {
      System(started, rows, broker.Now())
    }

    constructor (table: Table, listed: seq<RunId>, unused: Broker.RunBroker)
      ensures ids == listed && broker == unused && Now() == System(false, table, unused.Now())
    {
      ids, broker, started, rows := listed, unused, false, table;
    }

    method LogHasError(log: seq<Record.Row>) returns (found: bool)
      ensures found == Record.Holds(log, RunError)
    {
      var i := 0;
      while i < |log|
        invariant i <= |log| && forall j :: 0 <= j < i ==> !HasType(log[j].event, RunError)
      {
        if HasType(log[i].event, RunError) { return true; }
        i := i + 1;
      }
      return false;
    }

    method CloseWithTerminalEvent(r: RunId, code: FailCode)
      modifies this, broker
      ensures Now() == Close(old(Now()), r, code)
    {
      hide B.Post, Record.RunErrorOf;
      var known := broker.PostTo(r, B.Trusted(r, Fail(code, "")));
      if known { return; }
      NotPosted(old(broker.Now()), r, B.Trusted(r, Fail(code, "")));
      if r !in rows { return; }
      var log := rows[r].log;
      var explained := LogHasError(log);
      if explained {
        assert rows[r := rows[r]] == rows;
        return;
      }
      var seqNo := Record.LastSeq(log) + 1;
      rows := rows[r := rows[r].(log := log + [Record.Row(seqNo, Record.RunErrorOf(code, ""))])];
    }

    method CloseAll(failed: seq<RunId>, code: FailCode)
      modifies this, broker
      ensures Now() == CloseEach(old(Now()), failed, code)
    {
      hide Close;
      var i := 0;
      while i < |failed|
        invariant i <= |failed| && Now() == CloseEach(old(Now()), failed[..i], code)
      {
        CloseEachMore(old(Now()), failed[..i], failed[i], code);
        assert failed[..i + 1] == failed[..i] + [failed[i]];
        CloseWithTerminalEvent(failed[i], code);
        i := i + 1;
      }
      assert failed[..i] == failed;
    }

    /** Fails every run offered to or held by a provider of the previous process. */
    method FailOrphanedRuns() returns (failed: seq<RunId>)
      requires Distinct(ids)
      modifies this
      ensures failed == OrphansOf(old(rows), ids) && rows == FailAll(old(rows), failed) && started == old(started)
    {
      var found := OrphansOf(rows, ids);
      OrphansAreDistinct(rows, ids);
      failed := [];
      RecoveryTheorems.FailNone(rows);
      var i := 0;
      while i < |found|
        invariant i <= |found| && failed == found[..i] && rows == FailAll(old(rows), failed) && started == old(started)
      {
        var r := found[i];
        assert r in old(rows) && Orphan(old(rows)[r].status) by {
          assert r in found;
          RecoveryTheorems.OrphansAre(old(rows), ids, r);
        }
        assert r !in found[..i];
        RecoveryTheorems.FailOneMore(old(rows), failed, r);
        if Orphan(rows[r].status) {
          rows := rows[r := rows[r].(status := Record.Failed)];
          failed := failed + [r];
        }
        i := i + 1;
      }
    }

    /** Hands one waiting run to the broker, or fails it if the run it joins is gone. */
    method TakeBackRun(r: RunId, lost: seq<RunId>) returns (lost': seq<RunId>)
      requires r in rows
      modifies this, broker
      ensures Recovering(rows, broker.Now(), lost') == TakeBack(Recovering(old(rows), old(broker.Now()), lost), r)
      ensures started == old(started)
    {
      hide B.Enqueue;
      var row := rows[r];
      lost' := lost;
      if row.addressed.Some? && row.addressed.value !in broker.runs {
        rows := rows[r := row.(status := Record.Failed)];
        lost' := lost + [r];
        return;
      }
      var _ := broker.EnqueueRun(r, row.agent, row.thread, row.addressed, row.valid);
    }

    method RecoverQueued()
      requires Distinct(ids)
      modifies this, broker
      ensures Now() == Recovered(old(Now()), ids)
    {
      hide TakeBack, CloseEach;
      var waiting := QueuedRuns(rows, ids);
      var lost: seq<RunId> := [];
      var i := 0;
      while i < |waiting|
        invariant i <= |waiting| && started == old(started)
        invariant Recovering(rows, broker.Now(), lost) == TakeBackFirst(old(rows), old(broker.Now()), waiting, i)
      {
        lost := TakeBackRun(waiting[i], lost);
        i := i + 1;
      }
      CloseAll(lost, InterjectionTargetLost);
    }

    method Start() returns (orphaned: seq<RunId>)
      requires Distinct(ids)
      modifies this, broker
      ensures Now() == StartUp(old(Now()), ids)
      ensures orphaned == if old(started) then [] else OrphansOf(old(rows), ids)
    {
      hide Recovered, CloseEach, B.Start;
      if started { return []; }
      started := true;
      orphaned := FailOrphanedRuns();
      CloseAll(orphaned, OrphanedByRestart);
      broker.StartSweep();
      RecoverQueued();
    }
  }

  lemma NotPosted(s: B.State, r: RunId, m: B.Message)
    requires r !in s.runs
    ensures B.Post(s, r, m) == s
  {
  }
}
