/** The persisted status follows the broker. For every run the broker can have, and
    whichever of its writes raised, the row its record leaves is the one given here; it
    says where the run stands exactly when the writes that mattered committed. */
module RecordRefinement {
  import opened Vocabulary
  import B = BrokerSpec
  import opened BrokerInvariant
  import opened BrokerTheorems
  import opened Record

  /** A run about to be recorded: queued, nothing said, nothing refused. */
  predicate Ready(start: Kept) {
    start.status.Queued? && start.refused == [] && !start.sawError && !start.sawFinished
  }

  /** The one status write turned down is a second `cancelling`. */
  predicate OnlyRepeats(k: Kept) {
    forall i :: 0 <= i < |k.refused| ==> k.refused[i] == (Cancelling, Cancelling)
  }

  lemma OnlyRepeatsGrows(k: Kept, x: (Status, Status))
    ensures OnlyRepeats(k.(refused := k.refused + [x])) <==> OnlyRepeats(k) && x == (Cancelling, Cancelling)
  {
    var k' := k.(refused := k.refused + [x]);
    assert k'.refused[|k.refused|] == x;
    if OnlyRepeats(k') {
      forall i | 0 <= i < |k.refused| ensures k.refused[i] == (Cancelling, Cancelling) {
        assert k'.refused[i] == k.refused[i];
      }
    }
  }

  // ---- while a provider holds the run -----------------------------------------------------

  predicate IsCancel(e: Entry) {
    e.Did? && e.command.RequestCancel?
  }

  predicate CancelWritten(record: seq<Entry>, oks: seq<bool>)
    requires |oks| == |record|
  {
    exists i :: 0 <= i < |record| && oks[i] && IsCancel(record[i])
  }

  lemma CancelWrittenStep(record: seq<Entry>, oks: seq<bool>, n: nat)
    requires |oks| == |record| && n < |record|
    ensures CancelWritten(record[..n + 1], oks[..n + 1]) <==>
              CancelWritten(record[..n], oks[..n]) || (oks[n] && IsCancel(record[n]))
  {
    var a, b, x, y := record[..n], record[..n + 1], oks[..n], oks[..n + 1];
    if CancelWritten(a, x) {
      var i :| 0 <= i < |a| && x[i] && IsCancel(a[i]);
      assert y[i] && IsCancel(b[i]);
    }
    if oks[n] && IsCancel(record[n]) { assert y[n] && IsCancel(b[n]); }
    if CancelWritten(b, y) && !(oks[n] && IsCancel(record[n])) {
      var i :| 0 <= i < |b| && y[i] && IsCancel(b[i]);
      assert x[i] && IsCancel(a[i]);
    }
  }

  /** The row of a run somebody holds: as far as the writes of its offer, its claim and its
      first cancel got it. */
  function HeldStatus(record: seq<Entry>, oks: seq<bool>): Status
    requires |oks| == |record| >= 2
  {
    if !oks[0] then Queued
    else if !oks[1] then Offering
    else if CancelWritten(record, oks) then Cancelling
    else Running
  }

  /** No write asked for a status the row could not move to, a repeated `cancelling` aside. */
  predicate Tidy(record: seq<Entry>, oks: seq<bool>)
    requires |oks| == |record| >= 2
  {
    (oks[0] && oks[1]) || (!oks[1] && !CancelWritten(record, oks))
  }

  predicate HeldAs(k: Kept, record: seq<Entry>, oks: seq<bool>)
    requires |oks| == |record| >= 2
  {
    k.status == HeldStatus(record, oks) && (OnlyRepeats(k) <==> Tidy(record, oks))
  }

  predicate OpensHeld(record: seq<Entry>) {
    |record| >= 2 && record[0].Did? && record[0].command.Offer? && record[1].Did? && record[1].command.Claim?
  }

  lemma FirstTwo(start: Kept, record: seq<Entry>, oks: seq<bool>)
    requires |oks| == |record| && OpensHeld(record) && Ready(start)
    ensures HeldAs(Replay(start, record[..2], oks[..2]), record[..2], oks[..2])
  {
    assert record[..0] == [] && oks[..0] == [];
    ReplayStep(start, record, oks, 0);
    ReplayStep(start, record, oks, 1);
    assert !CancelWritten(record[..2], oks[..2]);
    var k := Replay(start, record[..1], oks[..1]);
    OnlyRepeatsGrows(k, (k.status, Running));
  }

  /** One more entry of a held run: what it does to the status and to what was refused. */
  lemma HeldStep(k: Kept, e: Entry, holder: Key, ok: bool)
    requires MidEntry(e, holder)
    ensures var k' := Handle(k, e, ok);
            if ok && IsCancel(e) then
              && k'.status == (if k.status.Running? then Cancelling else k.status)
              && (OnlyRepeats(k') <==> OnlyRepeats(k) && (k.status.Running? || k.status.Cancelling?))
            else k'.status == k.status && (OnlyRepeats(k') <==> OnlyRepeats(k))
  {
    OnlyRepeatsGrows(k, (k.status, Cancelling));
  }

  /** While a provider holds a run, its row is what the committed writes make it. */
  lemma {:induction false} HeldIsAsWritten(start: Kept, record: seq<Entry>, holder: Key, oks: seq<bool>, n: nat)
    requires |oks| == |record| && 2 <= n <= |record| && OpensHeld(record) && Ready(start)
    requires forall i :: 2 <= i < n ==> MidEntry(record[i], holder)
    ensures HeldAs(Replay(start, record[..n], oks[..n]), record[..n], oks[..n])
    decreases n
  {
    hide Handle, CancelWritten, OnlyRepeats, MidEntry;
    if n == 2 {
      FirstTwo(start, record, oks);
    } else {
      HeldIsAsWritten(start, record, holder, oks, n - 1);
      ReplayStep(start, record, oks, n - 1);
      CancelWrittenStep(record, oks, n - 1);
      assert MidEntry(record[n - 1], holder);
      HeldStep(Replay(start, record[..n - 1], oks[..n - 1]), record[n - 1], holder, oks[n - 1]);
    }
  }

  // ---- a tracked run -------------------------------------------------------------------------

  /** Where the broker has a run, in the words of the status row. */
  function BrokerStatus(run: B.Run): Status {
    if run.claimedBy.Some? then if CancelRecorded(run.record) then Cancelling else Running
    else if run.verdictOpen then Offering
    else Queued
  }

  /** What its row says, given which writes committed. */
  predicate StandsAs(k: Kept, run: B.Run, oks: seq<bool>)
    requires |oks| == |run.record|
  {
    if run.claimedBy.Some? then |run.record| >= 2 && HeldAs(k, run.record, oks)
    else if run.verdictOpen then |run.record| == 1 && k.refused == [] && k.status == if oks[0] then Offering else Queued
    else k.status.Queued? && k.refused == []
  }

  /** The writes that matter to where a run stands now. */
  predicate KeptUp(run: B.Run, oks: seq<bool>)
    requires |oks| == |run.record|
  {
    if run.claimedBy.Some? then
      |oks| >= 2 && oks[0] && oks[1] && (CancelRecorded(run.record) ==> CancelWritten(run.record, oks))
    else run.verdictOpen ==> |oks| >= 1 && oks[0]
  }

  lemma WrittenIsRecorded(record: seq<Entry>, oks: seq<bool>)
    requires |oks| == |record| && CancelWritten(record, oks)
    ensures CancelRecorded(record)
  {
    var i :| 0 <= i < |record| && oks[i] && IsCancel(record[i]);
    assert record[i].Did? && record[i].command.RequestCancel?;
  }

  lemma ShapedRunStands(r: RunId, run: B.Run, start: Kept, oks: seq<bool>)
    requires RunShape(r, run) && |oks| == |run.record| && Ready(start)
    ensures StandsAs(Replay(start, run.record, oks), run, oks)
  {
    hide CancelRecorded, CancelWritten, Speech, SaidBy, MidEntry;
    var record := run.record;
    assert record[..|record|] == record && oks[..|oks|] == oks;
    if run.claimedBy.Some? {
      assert HeldRecord(record, run.claimedBy.value);
      HeldIsAsWritten(start, record, run.claimedBy.value, oks, |record|);
    } else if run.verdictOpen {
      assert record[..0] == [] && oks[..0] == [];
      ReplayStep(start, record, oks, 0);
    }
  }

  /** A tracked run's row, whichever writes raised: `queued` before any offer; `offering`
      under an open verdict, or still `queued` if the offer's write raised; and while held
      `queued`, `offering`, `running` or `cancelling` by how far the committed writes got it.
      It says where the broker has the run exactly when the offer's, the claim's and some
      recorded cancel's write committed, as far as there are such. */
  lemma StatusFollowsBroker(s: B.State, r: RunId, start: Kept, oks: seq<bool>)
    requires Reachable(s) && r in s.runs && |oks| == |s.runs[r].record| && Ready(start)
    ensures var k, run := Replay(start, s.runs[r].record, oks), s.runs[r];
            && StandsAs(k, run, oks)
            && (k.status == BrokerStatus(run) <==> KeptUp(run, oks))
            && (OnlyRepeats(k) <==> (run.claimedBy.Some? ==> |oks| >= 2 && Tidy(run.record, oks)))
  {
    hide CancelRecorded, CancelWritten, Inv, RunShape, Placed, Handle;
    ReachableHolds(s);
    InvRun(s, {}, Nobody, r);
    ShapedRunStands(r, s.runs[r], start, oks);
    if CancelWritten(s.runs[r].record, oks) { WrittenIsRecorded(s.runs[r].record, oks); }
  }

  // ---- a finished run --------------------------------------------------------------------------

  /** The row before a finished run's last word. */
  function BeforeLast(record: seq<Entry>, oks: seq<bool>): Status
    requires |oks| == |record| >= 2
  {
    var n := |record| - 2;
    if n == 0 then Queued
    else if n == 1 then if oks[0] then Offering else Queued
    else HeldStatus(record[..n], oks[..n])
  }

  /** The provider finished the run and had said that it did. */
  predicate Completes(record: seq<Entry>) {
    && |record| >= 2 && record[|record| - 2].Did? && record[|record| - 2].command.FinishStream?
    && Relayed(record[..|record| - 2], RunFinished)
  }

  /** The row of a finished run: what its last word says if that was written, except that
      `completed` is only reached from a row that got to `running`; else what it was before. */
  function EndStatus(record: seq<Entry>, oks: seq<bool>): Status
    requires |oks| == |record| >= 2
  {
    var n := |record| - 2;
    var last := record[n];
    if last.EndOfStream? || !oks[n] then BeforeLast(record, oks)
    else match last.command
         case Fail(_, _) => Failed
         case RequestCancel => Cancelled
         case FinishStream =>
           if Completes(record) then if oks[0] && oks[1] then Completed else BeforeLast(record, oks)
           else if last.cancelRequested then Cancelled else Failed
         case _ => BeforeLast(record, oks)
  }

  /** The one status write of a finished run's last word the machine can turn down. */
  predicate RefusedAtTheEnd(record: seq<Entry>, oks: seq<bool>)
    requires |oks| == |record| >= 2
  {
    oks[|record| - 2] && Completes(record) && !(oks[0] && oks[1])
  }

  predicate EndsAs(k: Kept, record: seq<Entry>, oks: seq<bool>)
    requires |oks| == |record|
  {
    && |record| >= 2
    && k.status == EndStatus(record, oks)
    && (Terminal(k.status) <==> oks[|record| - 2] && (Completes(record) ==> oks[0] && oks[1]))
    && (OnlyRepeats(k) <==>
          (|record| >= 4 ==> Tidy(record[..|record| - 2], oks[..|record| - 2])) && !RefusedAtTheEnd(record, oks))
  }

  /** What the record of a finished run looks like, seen from its last word. */
  predicate EndsWell(record: seq<Entry>, holder: Option<Key>) {
    && |record| >= 2 && record[|record| - 1] == EndOfStream
    && if holder.None? then UntakenRecord(record[..|record| - 1]) else TakenRecord(record[..|record| - 1], holder.value)
  }

  lemma LastWordIs(record: seq<Entry>, holder: Option<Key>)
    requires EndsWell(record, holder)
    ensures var n := |record| - 2;
            && record[n].Did? && Unended(record[..n])
            && (record[n].command.Fail? || (n < 2 && record[n].command.RequestCancel? && record[n].holder.None?)
                || (n >= 2 && record[n].command.FinishStream?))
            && (n == 1 ==> record[0].Did? && record[0].command.Offer?)
            && (n >= 2 ==>
                  OpensHeld(record) && holder.Some? && forall i :: 2 <= i < n ==> MidEntry(record[i], holder.value))
  {
    var n := |record| - 2;
    var told := record[..|record| - 1];
    assert forall i :: 0 <= i <= n ==> told[i] == record[i];
    if holder.Some? {
      forall i | 2 <= i < n ensures MidEntry(record[i], holder.value) { assert MidEntry(told[i], holder.value); }
    }
  }

  lemma BeforeLastIs(start: Kept, record: seq<Entry>, oks: seq<bool>, holder: Option<Key>)
    requires |oks| == |record| >= 2 && EndsWell(record, holder) && Ready(start)
    ensures var n := |record| - 2;
            var k := Replay(start, record[..n], oks[..n]);
            && k.status == BeforeLast(record, oks)
            && (OnlyRepeats(k) <==> (n >= 2 ==> Tidy(record[..n], oks[..n])))
            && (k.sawFinished <==> Relayed(record[..n], RunFinished))
            && (k.status.Running? || k.status.Cancelling? <==> n >= 2 && oks[0] && oks[1])
            && (k.status.Queued? || k.status.Offering? || k.status.Running? || k.status.Cancelling?)
  {
    hide EndsWell, CancelWritten, Relayed, MidEntry, Written, Holds;
    var n := |record| - 2;
    LastWordIs(record, holder);
    FlagsAndLog(start, record[..n], oks[..n]);
    if n == 0 {
      assert record[..0] == [] && oks[..0] == [];
    } else if n == 1 {
      assert record[..0] == [] && oks[..0] == [];
      ReplayStep(start, record, oks, 0);
    } else {
      HeldIsAsWritten(start, record, holder.value, oks, n);
    }
  }

  /** What a last word does to the row of a run that is not over. */
  predicate LastWordMade(k: Kept, e: Entry, ok: bool, k': Kept)
    requires e.Did?
  {
    if !ok then k'.status == k.status && (OnlyRepeats(k') <==> OnlyRepeats(k))
    else if e.command.FinishStream? && k.sawFinished && !k.status.Running? && !k.status.Cancelling? then
      k'.status == k.status && !OnlyRepeats(k')
    else
      && (OnlyRepeats(k') <==> OnlyRepeats(k))
      && k'.status == (if e.command.Fail? then Failed else if e.command.RequestCancel? then Cancelled
                       else if k.sawFinished then Completed else if e.cancelRequested then Cancelled else Failed)
  }

  lemma LastWordDoes(k: Kept, e: Entry, ok: bool)
    requires e.Did? && (k.status.Queued? || k.status.Offering? || k.status.Running? || k.status.Cancelling?)
    requires e.command.Fail? || (e.command.RequestCancel? && e.holder.None?) || e.command.FinishStream?
    ensures LastWordMade(k, e, ok, Handle(k, e, ok))
  {
    hide RunErrorOf;
    OnlyRepeatsGrows(k, (k.status, Completed));
  }

  lemma LastWordEnds(k: Kept, k': Kept, record: seq<Entry>, oks: seq<bool>)
    requires |oks| == |record| >= 2 && record[|record| - 2].Did?
    requires var n := |record| - 2;
             && LastWordMade(k, record[n], oks[n], k') && k.status == BeforeLast(record, oks)
             && (record[n].command.Fail? || record[n].command.RequestCancel? ||
                 (n >= 2 && record[n].command.FinishStream?))
             && (OnlyRepeats(k) <==> (n >= 2 ==> Tidy(record[..n], oks[..n])))
             && (k.sawFinished <==> Relayed(record[..n], RunFinished))
             && (k.status.Running? || k.status.Cancelling? <==> n >= 2 && oks[0] && oks[1])
             && (k.status.Queued? || k.status.Offering? || k.status.Running? || k.status.Cancelling?)
    ensures EndsAs(k', record, oks)
  {
    hide Tidy, BeforeLast, Relayed, OnlyRepeats;
  }

  lemma StreamEndIsQuiet(k: Kept, ok: bool)
    ensures Handle(k, EndOfStream, ok).status == k.status
    ensures OnlyRepeats(Handle(k, EndOfStream, ok)) <==> OnlyRepeats(k)
  {
  }

  lemma CompleteRecordEnds(start: Kept, record: seq<Entry>, oks: seq<bool>, holder: Option<Key>)
    requires |oks| == |record| && EndsWell(record, holder) && Ready(start)
    ensures EndsAs(Replay(start, record, oks), record, oks)
  {
    var n := |record| - 2;
    assert record[n + 1].EndOfStream? && record[..n + 2] == record && oks[..n + 2] == oks;
    hide Handle, EndsWell, Tidy, BeforeLast, Relayed, MidEntry, OnlyRepeats, EndsAs, LastWordMade;
    ReplayStep(start, record, oks, n + 1);
    ReplayStep(start, record, oks, n);
    LastWordIs(record, holder);
    BeforeLastIs(start, record, oks, holder);
    var k, k' := Replay(start, record[..n], oks[..n]), Replay(start, record[..n + 1], oks[..n + 1]);
    LastWordDoes(k, record[n], oks[n]);
    LastWordEnds(k, k', record, oks);
    StreamEndIsQuiet(k', oks[n + 1]);
    SameEnd(k', Replay(start, record, oks), record, oks);
  }

  lemma SameEnd(k: Kept, k': Kept, record: seq<Entry>, oks: seq<bool>)
    requires |oks| == |record| && EndsAs(k, record, oks)
    requires k'.status == k.status && (OnlyRepeats(k') <==> OnlyRepeats(k))
    ensures EndsAs(k', record, oks)
  {
    hide Tidy, EndStatus, Relayed, OnlyRepeats;
  }

  /** A finished run's row, whichever writes raised: what its last word says exactly when that
      was written, and for `completed` the offer and the claim were too; otherwise the row is
      left where it stood, not terminal. */
  lemma FinishedStatus(s: B.State, r: RunId, start: Kept, oks: seq<bool>)
    requires Reachable(s) && r in s.done && |oks| == |s.done[r].record| && Ready(start)
    ensures EndsAs(Replay(start, s.done[r].record, oks), s.done[r].record, oks)
    ensures Completes(s.done[r].record) ==> (Replay(start, s.done[r].record, oks).status.Queued? <==> !oks[0])
  {
    hide Inv, EndsAs, UntakenRecord, TakenRecord, Relayed;
    ReachableHolds(s);
    InvDone(s, r);
    var record := s.done[r].record;
    EndsWellOf(r, s.done[r]);
    CompleteRecordEnds(start, record, oks, s.done[r].claimedBy);
    CompletedRow(start, record, oks, s.done[r].claimedBy);
  }

  lemma EndsWellOf(r: RunId, run: B.Run)
    requires DoneShape(r, run)
    ensures EndsWell(run.record, run.claimedBy)
  {
    var told := run.record[..|run.record| - 1];
    assert |told| >= 1;
  }

  lemma CompletedRow(start: Kept, record: seq<Entry>, oks: seq<bool>, holder: Option<Key>)
    requires |oks| == |record| && EndsWell(record, holder) && EndsAs(Replay(start, record, oks), record, oks)
    ensures Completes(record) ==> (Replay(start, record, oks).status.Queued? <==> !oks[0])
  {
    hide Relayed, CancelWritten;
    LastWordIs(record, holder);
    hide EndsWell;
  }

  /** One raised write is enough: the offer's, in a run whose provider then finished it. The
      row stays `queued`, with the RUN_FINISHED in its log. */
  lemma AFinishedRunCanStayQueued(holder: Key)
    ensures var said := Event(Known(RunFinished), true, "", "", "", "", NoCode);
            var record := [Did(Offer, None, false), Did(Claim, Some(holder), false),
                           Did(RelayEvent(said), Some(holder), false), Did(FinishStream, Some(holder), false)];
            var k := Replay(Handed([]), record, [false, true, true, true]);
            k.status == Queued && Holds(k.log, RunFinished)
  {
    var said := Event(Known(RunFinished), true, "", "", "", "", NoCode);
    var record := [Did(Offer, None, false), Did(Claim, Some(holder), false),
                   Did(RelayEvent(said), Some(holder), false), Did(FinishStream, Some(holder), false)];
    var oks := [false, true, true, true];
    assert record[..0] == [] && oks[..0] == [] && record[..4] == record && oks[..4] == oks;
    ReplayStep(Handed([]), record, oks, 0);
    ReplayStep(Handed([]), record, oks, 1);
    ReplayStep(Handed([]), record, oks, 2);
    ReplayStep(Handed([]), record, oks, 3);
    var k := Replay(Handed([]), record, oks);
    assert k.log[0].event == said;
  }
}
