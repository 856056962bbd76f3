/** A run's record as it is kept: the status row, the numbered event log and the live
    stream, written by one handler per command. Every handler either commits what it
    writes or raises and writes nothing; `ok` says which. */
module Record {
  import opened Vocabulary

  // ---- the status machine -------------------------------------------------------

  datatype Status = Queued | Offering | Running | Cancelling | Completed | Cancelled | Failed

  /** The statuses a write of `to` may come from; `Queued` is never written. */
  function LegalFrom(to: Status): set<Status> {
    match to
    case Queued => {}
    case Offering => {Queued}
    case Running => {Offering}
    case Cancelling => {Running}
    case Completed => {Running, Cancelling}
    case Cancelled => {Queued, Offering, Running, Cancelling}
    case Failed => {Queued, Offering, Running, Cancelling}
  }

  predicate Terminal(s: Status) {
    s.Completed? || s.Cancelled? || s.Failed?
  }

  // ---- one run's rows ------------------------------------------------------------

  datatype Row = Row(seqNo: nat, event: Event)

  datatype OutItem = Out(event: Event) | OutEnd

  /** What is kept for one run. `refused` lists the status writes the machine turned down. */
  datatype Kept = Kept(status: Status, seqNo: nat, sawFinished: bool, sawError: bool,
                       log: seq<Row>, out: seq<OutItem>, refused: seq<(Status, Status)>)

  function LastSeq(log: seq<Row>): (last: nat)
    ensures forall i :: 0 <= i < |log| ==> log[i].seqNo <= last
  {
    if log == [] then 0
    else
      var n := |log| - 1;
      var before := LastSeq(log[..n]);
      if log[n].seqNo > before then log[n].seqNo else before
  }

  /** A run as it is handed to the broker: queued, with the log its row has, which for a
      new run is empty, and numbering on from there. */
  function Handed(log: seq<Row>): Kept {
    Kept(Queued, LastSeq(log), false, false, log, [], [])
  }

  function CodeText(code: FailCode): string {
    match code
    case NoCode => ""
    case ProviderRefused => "provider_refused"
    case ProviderDeclined => "provider_declined"
    case ProviderDidNotAnswer => "provider_did_not_answer"
    case ProviderLeftHoldingIt => "provider_left_holding_it"
    case ProviderSentMalformedEvent => "provider_sent_malformed_event"
    case ProviderStreamEndedWithoutFinishing => "provider_stream_ended_without_finishing"
    case NoProviderTookIt => "no_provider_took_it"
    case InputDoesNotValidate => "input_does_not_validate"
    case OrphanedByRestart => "orphaned_by_funduq_restart"
    case InterjectionTargetLost => "interjection_target_lost"
    case HostReason(name) => name
  }

  /** A `RUN_ERROR` funduq itself authors. */
  function RunErrorOf(code: FailCode, message: string): Event {
    Event(Known(RunError), true, "", "", "", if message == "" then CodeText(code) else message, code)
  }

  const STREAM_ENDED := "the agent's stream ended without finishing"

  function Mark(k: Kept, to: Status): Kept {
    if k.status in LegalFrom(to) then k.(status := to) else k.(refused := k.refused + [(k.status, to)])
  }

  /** An event numbered, stored and streamed, together with what else its commit holds. */
  function Store(k: Kept, e: Event): Kept {
    k.(log := k.log + [Row(k.seqNo, e)], out := k.out + [Out(e)])
  }

  function Relay(k: Kept, e: Event, ok: bool): Kept {
    if Malformed(e) then k
    else
      var k1 := k.(sawFinished := k.sawFinished || HasType(e, RunFinished),
                   sawError := k.sawError || HasType(e, RunError), seqNo := k.seqNo + 1);
      if ok then Store(k1, e) else k1
  }

  function FinalStatus(k: Kept, cancelRequested: bool): Status {
    if k.sawFinished then Completed else if cancelRequested then Cancelled else Failed
  }

  function Finish(k: Kept, cancelRequested: bool, ok: bool): Kept {
    var to := FinalStatus(k, cancelRequested);
    if to.Failed? && !k.sawError then
      var k1 := k.(seqNo := k.seqNo + 1);
      if ok then Mark(Store(k1, RunErrorOf(ProviderStreamEndedWithoutFinishing, STREAM_ENDED)), to) else k1
    else if ok then Mark(k, to) else k
  }

  function FailWith(k: Kept, code: FailCode, message: string, ok: bool): Kept {
    var k1 := k.(seqNo := k.seqNo + 1);
    if ok then Mark(Store(k1, RunErrorOf(code, message)), Failed) else k1
  }

  function Handle(k: Kept, e: Entry, ok: bool): Kept {
    match e
    case EndOfStream => k.(out := k.out + [OutEnd])
    case Did(c, holder, cancelRequested) =>
      match c
      case Offer => if ok then Mark(k, Offering) else k
      case Claim => if ok then Mark(k, Running) else k
      case RelayEvent(ev) => Relay(k, ev, ok)
      case FinishStream => Finish(k, cancelRequested, ok)
      case RequestCancel => if ok then Mark(k, if holder.None? then Cancelled else Cancelling) else k
      case Fail(code, message) => FailWith(k, code, message, ok)
  }

  /** What a whole record makes of `start`, when `oks[i]` says whether the i-th write committed. */
  function Replay(start: Kept, record: seq<Entry>, oks: seq<bool>): Kept
    requires |oks| == |record|
  {
    if record == [] then start
    else
      var n := |record| - 1;
      Handle(Replay(start, record[..n], oks[..n]), record[n], oks[n])
  }

  // ---- the same, in place ----------------------------------------------------------

  /** The handlers as they run: fields of the run and of its rows, changed step by step. */
  class Keeper {
    var status: Status
    var seqNo: nat
    var sawRunFinished: bool
    var sawRunError: bool
    var poisoned: bool
    var log: seq<Row>
    var out: seq<OutItem>
    var refused: seq<(Status, Status)>

    ghost function View(): Kept
      reads this
    {
      Kept(status, seqNo, sawRunFinished, sawRunError, log, out, refused)
    }

    constructor (stored: seq<Row>)
      ensures View() == Handed(stored) && !poisoned
    {
      status, seqNo, sawRunFinished, sawRunError, poisoned := Queued, LastSeq(stored), false, false, false;
      log, out, refused := stored, [], [];
    }

    method MarkRunStatus(to: Status) returns (applied: bool)
      modifies this
      ensures View() == Mark(old(View()), to) && poisoned == old(poisoned)
      ensures applied == (old(status) in LegalFrom(to))
    {
      applied := status in LegalFrom(to);
      if applied {
        status := to;
      } else {
        refused := refused + [(status, to)];
      }
    }

    /** Sets the run's flags before it writes, so a write that raises leaves them set. */
    method HandleRelay(e: Event, ok: bool)
      modifies this
      ensures View() == Relay(old(View()), e, ok)
      ensures poisoned == (old(poisoned) || Malformed(e))
    {
      if Malformed(e) {
        poisoned := true;
        return;
      }
      if HasType(e, RunFinished) {
        sawRunFinished := true;
      } else if HasType(e, RunError) {
        sawRunError := true;
      }
      seqNo := seqNo + 1;
      if !ok { return; }
      log := log + [Row(seqNo, e)];
      out := out + [Out(e)];
    }

    method HandleFinish(cancelRequested: bool, ok: bool)
      modifies this
      ensures View() == Finish(old(View()), cancelRequested, ok) && poisoned == old(poisoned)
    {
      var to: Status;
      if sawRunFinished { to := Completed; }
      else if cancelRequested { to := Cancelled; }
      else { to := Failed; }
      var explains := to == Failed && !sawRunError;
      var event := RunErrorOf(ProviderStreamEndedWithoutFinishing, STREAM_ENDED);
      if explains { seqNo := seqNo + 1; }
      if !ok { return; }
      if explains { log := log + [Row(seqNo, event)]; }
      var _ := MarkRunStatus(to);
      if explains { out := out + [Out(event)]; }
    }

    method HandleFail(code: FailCode, message: string, ok: bool)
      modifies this
      ensures View() == FailWith(old(View()), code, message, ok) && poisoned == old(poisoned)
    {
      var event := RunErrorOf(code, message);
      seqNo := seqNo + 1;
      if !ok { return; }
      log := log + [Row(seqNo, event)];
      var _ := MarkRunStatus(Failed);
      out := out + [Out(event)];
    }

    method HandleCancel(claimedBy: Option<Key>, ok: bool)
      modifies this
      ensures View() == Handle(old(View()), Did(RequestCancel, claimedBy, true), ok) && poisoned == old(poisoned)
    {
      if !ok { return; }
      if claimedBy.None? {
        var _ := MarkRunStatus(Cancelled);
        return;
      }
      var _ := MarkRunStatus(Cancelling);
    }

    method HandleEntry(e: Entry, ok: bool)
      modifies this
      ensures View() == Handle(old(View()), e, ok)
    {
      hide Relay, Finish, FailWith, Mark;
      match e
      case EndOfStream => out := out + [OutEnd];
      case Did(c, holder, cancelRequested) =>
        match c
        case Offer => if ok { var _ := MarkRunStatus(Offering); }
        case Claim => if ok { var _ := MarkRunStatus(Running); }
        case RelayEvent(ev) => HandleRelay(ev, ok);
        case FinishStream => HandleFinish(cancelRequested, ok);
        case RequestCancel => HandleCancel(holder, ok);
        case Fail(code, message) => HandleFail(code, message, ok);
    }

    /** Every entry of a run's record, one after another, whichever writes raise. */
    method KeepRecord(record: seq<Entry>, oks: seq<bool>)
      requires |oks| == |record|
      modifies this
      ensures View() == Replay(old(View()), record, oks)
    {
      hide Handle;
      var i := 0;
      while i < |record|
        invariant i <= |record| && View() == Replay(old(View()), record[..i], oks[..i])
      {
        ReplayStep(old(View()), record, oks, i);
        HandleEntry(record[i], oks[i]);
        i := i + 1;
      }
      assert record[..i] == record && oks[..i] == oks;
    }
  }

  // ---- the stream is the log ---------------------------------------------------------

  function Events(log: seq<Row>): seq<Event> {
    if log == [] then [] else Events(log[..|log| - 1]) + [log[|log| - 1].event]
  }

  function Streamed(out: seq<OutItem>): seq<Event> {
    if out == [] then []
    else
      Streamed(out[..|out| - 1])
      + (if out[|out| - 1].Out? then [out[|out| - 1].event] else [])
  }

  lemma EventsGrow(log: seq<Row>, r: Row)
    ensures Events(log + [r]) == Events(log) + [r.event]
  {
    assert (log + [r])[..|log|] == log;
  }

  lemma StreamedGrow(out: seq<OutItem>, o: OutItem)
    ensures Streamed(out + [o]) == Streamed(out) + (if o.Out? then [o.event] else [])
  {
    assert (out + [o])[..|out|] == out;
  }

  /** From the `n`th on, what was stored is what was streamed, and the numbers rise. */
  ghost predicate InStep(k: Kept, n: nat) {
    && n <= |k.log| && Streamed(k.out) == Events(k.log[n..])
    && (forall i, j :: 0 <= i < j < |k.log| ==> k.log[i].seqNo < k.log[j].seqNo)
    && (forall i :: 0 <= i < |k.log| ==> k.log[i].seqNo <= k.seqNo)
  }

  lemma RisingGrows(log: seq<Row>, r: Row)
    requires forall i, j :: 0 <= i < j < |log| ==> log[i].seqNo < log[j].seqNo
    requires forall i :: 0 <= i < |log| ==> log[i].seqNo < r.seqNo
    ensures forall i, j :: 0 <= i < j < |log + [r]| ==> (log + [r])[i].seqNo < (log + [r])[j].seqNo
  {
    forall i, j | 0 <= i < j < |log + [r]| ensures (log + [r])[i].seqNo < (log + [r])[j].seqNo {
      assert (log + [r])[i] == log[i];
    }
  }

  lemma StoreInStep(k: Kept, e: Event, n: nat)
    requires InStep(k, n)
    ensures InStep(Store(k.(seqNo := k.seqNo + 1), e), n)
  {
    hide Streamed, Events;
    var row := Row(k.seqNo + 1, e);
    assert (k.log + [row])[n..] == k.log[n..] + [row];
    EventsGrow(k.log[n..], row);
    StreamedGrow(k.out, Out(e));
    RisingGrows(k.log, row);
  }

  lemma RelayInStep(k: Kept, e: Event, ok: bool, n: nat)
    requires InStep(k, n)
    ensures InStep(Relay(k, e, ok), n)
  {
    hide Streamed, Events, HasType, Malformed;
    var k1 := k.(sawFinished := k.sawFinished || HasType(e, RunFinished),
                 sawError := k.sawError || HasType(e, RunError));
    assert InStep(k1, n);
    StoreInStep(k1, e, n);
  }

  lemma MarkInStep(k: Kept, to: Status, n: nat)
    requires InStep(k, n)
    ensures InStep(Mark(k, to), n)
  {
    hide Streamed, Events, LegalFrom;
  }

  lemma FinishInStep(k: Kept, cancelRequested: bool, ok: bool, n: nat)
    requires InStep(k, n)
    ensures InStep(Finish(k, cancelRequested, ok), n)
  {
    hide RunErrorOf, InStep, Mark;
    var k1 := k.(seqNo := k.seqNo + 1);
    var event := RunErrorOf(ProviderStreamEndedWithoutFinishing, STREAM_ENDED);
    NumberedInStep(k, n);
    StoreInStep(k, event, n);
    MarkInStep(Store(k1, event), FinalStatus(k, cancelRequested), n);
    MarkInStep(k, FinalStatus(k, cancelRequested), n);
  }

  lemma NumberedInStep(k: Kept, n: nat)
    requires InStep(k, n)
    ensures InStep(k.(seqNo := k.seqNo + 1), n)
  {
    hide Streamed, Events;
  }

  lemma FailInStep(k: Kept, code: FailCode, message: string, ok: bool, n: nat)
    requires InStep(k, n)
    ensures InStep(FailWith(k, code, message, ok), n)
  {
    hide RunErrorOf, InStep, Mark;
    var event := RunErrorOf(code, message);
    NumberedInStep(k, n);
    StoreInStep(k, event, n);
    MarkInStep(Store(k.(seqNo := k.seqNo + 1), event), Failed, n);
  }

  lemma EndInStep(k: Kept, n: nat)
    requires InStep(k, n)
    ensures InStep(k.(out := k.out + [OutEnd]), n)
  {
    hide Streamed, Events;
    StreamedGrow(k.out, OutEnd);
    assert Streamed(k.out) + [] == Streamed(k.out);
  }

  lemma HandleInStep(k: Kept, e: Entry, ok: bool, n: nat)
    requires InStep(k, n)
    ensures InStep(Handle(k, e, ok), n)
  {
    hide Relay, Finish, FailWith, InStep, Mark;
    if e.EndOfStream? {
      EndInStep(k, n);
    } else {
      match e.command
      case RelayEvent(ev) => RelayInStep(k, ev, ok, n);
      case FinishStream => FinishInStep(k, e.cancelRequested, ok, n);
      case Fail(code, message) => FailInStep(k, code, message, ok, n);
      case Offer => MarkInStep(k, Offering, n);
      case Claim => MarkInStep(k, Running, n);
      case RequestCancel => MarkInStep(k, if e.holder.None? then Cancelled else Cancelling, n);
    }
  }

  /** Whatever is recorded and whichever writes raise, from wherever the log began, the
      live stream carries exactly the events stored since, and all numbers rise. */
  lemma {:induction false} StreamIsTheLog(start: Kept, record: seq<Entry>, oks: seq<bool>, n: nat)
    requires |oks| == |record| && InStep(start, n)
    ensures InStep(Replay(start, record, oks), n)
  {
    hide InStep, Handle;
    if record != [] {
      var m := |record| - 1;
      StreamIsTheLog(start, record[..m], oks[..m], n);
      HandleInStep(Replay(start, record[..m], oks[..m]), record[m], oks[m], n);
    }
  }

  /** A run is handed over in step, whatever rising log it comes with. */
  lemma HandedInStep(log: seq<Row>)
    requires forall i, j :: 0 <= i < j < |log| ==> log[i].seqNo < log[j].seqNo
    ensures InStep(Handed(log), |log|)
  {
    assert log[|log|..] == [];
  }

  // ---- the log is what was reported ----------------------------------------------------------

  predicate IsRelay(e: Entry) {
    e.Did? && e.command.RelayEvent?
  }

  /** The events a provider reported that were well formed and whose write committed, in
      order and as they were reported. */
  function Reported(record: seq<Entry>, oks: seq<bool>): seq<Event>
    requires |oks| == |record|
  {
    if record == [] then []
    else
      var n := |record| - 1;
      Reported(record[..n], oks[..n])
      + (if oks[n] && IsRelay(record[n]) && (record[n].command.event.tag.Foreign? || record[n].command.event.validates)
         then [record[n].command.event] else [])
  }

  /** No last word yet. */
  predicate Unended(record: seq<Entry>) {
    forall i :: 0 <= i < |record| && record[i].Did? ==> !record[i].command.Fail? && !record[i].command.FinishStream?
  }

  lemma OneMoreReport(k: Kept, e: Entry, ok: bool)
    requires e.Did? ==> !e.command.Fail? && !e.command.FinishStream?
    ensures Events(Handle(k, e, ok).log) ==
              Events(k.log) + if ok && IsRelay(e) && !Malformed(e.command.event) then [e.command.event] else []
  {
    hide Events, HasType, Malformed;
    if IsRelay(e) { EventsGrow(k.log, Row(k.seqNo + 1, e.command.event)); }
    assert Events(k.log) + [] == Events(k.log);
  }

  /** Over any record with no last word yet and whichever writes raise: what is stored since
      the run was handed over is exactly what was reported and written, unchanged and in order. */
  lemma {:induction false} LogIsWhatWasReported(start: Kept, record: seq<Entry>, oks: seq<bool>)
    requires |oks| == |record| && Unended(record)
    ensures Events(Replay(start, record, oks).log) == Events(start.log) + Reported(record, oks)
  {
    hide Events, Handle, Malformed;
    if record == [] {
      assert Events(start.log) + [] == Events(start.log);
    } else {
      var n := |record| - 1;
      assert Unended(record[..n]) by { assert forall i :: 0 <= i < n ==> record[..n][i] == record[i]; }
      LogIsWhatWasReported(start, record[..n], oks[..n]);
      OneMoreReport(Replay(start, record[..n], oks[..n]), record[n], oks[n]);
      if IsRelay(record[n]) { WellFormedIs(record[n].command.event); }
      var one := if oks[n] && IsRelay(record[n]) &&
          !Malformed(record[n].command.event) then [record[n].command.event] else [];
      assert (Events(start.log) + Reported(record[..n], oks[..n])) + one
             == Events(start.log) + (Reported(record[..n], oks[..n]) + one);
    }
  }

  lemma WellFormedIs(e: Event)
    ensures !Malformed(e) <==> e.tag.Foreign? || e.validates
  {
  }

  /** A RUN_ERROR that says why: the code, and the words given or else the code's own. */
  predicate SaysWhy(e: Event, code: FailCode, message: string) {
    e.tag == Known(RunError) && e.validates && e.code == code &&
        e.message == if message != "" then message else CodeText(code)
  }

  /** What a last word adds to the log: for funduq's own end one RUN_ERROR that says why; for
      the provider's end one only if the run fails and it relayed none; and only if written. */
  lemma LastWordIsReported(k: Kept, e: Entry, ok: bool)
    requires e.Did? && (e.command.Fail? || e.command.FinishStream?)
    ensures var log := Handle(k, e, ok).log;
            var why := if e.command.Fail? then Some((e.command.code, e.command.message))
                       else if !k.sawFinished && !e.cancelRequested && !k.sawError
                       then Some((ProviderStreamEndedWithoutFinishing, "the agent's stream ended without finishing"))
                       else None;
            if ok && why.Some? then |log| == |k.log| + 1 && log[..|k.log|] == k.log &&
                SaysWhy(log[|k.log|].event, why.value.0, why.value.1)
            else log == k.log
  {
  }

  // ---- a final status has its event -------------------------------------------------------

  predicate Holds(log: seq<Row>, t: EventType) {
    exists i :: 0 <= i < |log| && HasType(log[i].event, t)
  }

  lemma HoldsGrows(log: seq<Row>, r: Row, t: EventType)
    ensures Holds(log + [r], t) <==> Holds(log, t) || HasType(r.event, t)
  {
    if Holds(log, t) {
      var i :| 0 <= i < |log| && HasType(log[i].event, t);
      assert (log + [r])[i] == log[i];
    }
    if HasType(r.event, t) { assert (log + [r])[|log|] == r; }
    if Holds(log + [r], t) {
      var i :| 0 <= i < |log + [r]| && HasType((log + [r])[i].event, t);
      assert i < |log| ==> log[i] == (log + [r])[i];
    }
  }

  /** The flags say what the log holds, and a final status has the event that explains it. */
  ghost predicate Explained(k: Kept) {
    && (k.sawError ==> Holds(k.log, RunError))
    && (k.sawFinished ==> Holds(k.log, RunFinished))
    && (k.status.Failed? ==> Holds(k.log, RunError))
    && (k.status.Completed? ==> Holds(k.log, RunFinished))
  }

  /** The flags are set before the event is stored: they stay true exactly unless the
      write of the first `RUN_ERROR`, or of the first `RUN_FINISHED`, raises. */
  lemma RelayExplained(k: Kept, e: Event, ok: bool)
    requires Explained(k)
    ensures Explained(Relay(k, e, ok)) <==>
              Malformed(e) || ok
              || ((HasType(e, RunError) ==> Holds(k.log, RunError))
                  && (HasType(e, RunFinished) ==> Holds(k.log, RunFinished)))
  {
    HoldsGrows(k.log, Row(k.seqNo + 1, e), RunError);
    HoldsGrows(k.log, Row(k.seqNo + 1, e), RunFinished);
  }

  lemma StoredErrorExplains(k: Kept, code: FailCode, message: string, to: Status)
    requires Explained(k) && !to.Completed?
    ensures Explained(Mark(Store(k.(seqNo := k.seqNo + 1), RunErrorOf(code, message)), to))
  {
    hide Holds, RunErrorOf, LegalFrom;
    OwnErrorIsOne(code, message);
    HoldsGrows(k.log, Row(k.seqNo + 1, RunErrorOf(code, message)), RunError);
    HoldsGrows(k.log, Row(k.seqNo + 1, RunErrorOf(code, message)), RunFinished);
  }

  lemma FinishExplained(k: Kept, cancelRequested: bool, ok: bool)
    requires Explained(k)
    ensures Explained(Finish(k, cancelRequested, ok))
  {
    hide Holds, RunErrorOf, LegalFrom;
    StoredErrorExplains(k, ProviderStreamEndedWithoutFinishing, STREAM_ENDED, Failed);
  }

  /** Every other write may raise without harm: a status and its event share a commit. */
  lemma OthersExplained(k: Kept, e: Entry, ok: bool)
    requires Explained(k) && !IsRelay(e)
    ensures Explained(Handle(k, e, ok))
  {
    hide Holds, RunErrorOf, LegalFrom, Finish;
    if e.Did? && e.command.Fail? { StoredErrorExplains(k, e.command.code, e.command.message, Failed); }
    if e.Did? && e.command.FinishStream? { FinishExplained(k, e.cancelRequested, ok); }
  }

  predicate RelaysEnd(e: Entry) {
    IsRelay(e) && (HasType(e.command.event, RunError) || HasType(e.command.event, RunFinished))
  }

  /** No relayed `RUN_ERROR` or `RUN_FINISHED` was lost to a write that raised. */
  predicate TerminalsWritten(record: seq<Entry>, oks: seq<bool>)
    requires |oks| == |record|
  {
    forall i :: 0 <= i < |record| && RelaysEnd(record[i]) ==> oks[i]
  }

  /** Over a whole record: a run kept as failed has a `RUN_ERROR` in its log, and one
      kept as completed a `RUN_FINISHED`, if those events were themselves written. */
  lemma {:induction false} FinalStatusIsExplained(start: Kept, record: seq<Entry>, oks: seq<bool>)
    requires |oks| == |record| && TerminalsWritten(record, oks) && Explained(start)
    ensures Explained(Replay(start, record, oks))
  {
    hide Explained, Handle, Relay;
    if record != [] {
      var n := |record| - 1;
      assert TerminalsWritten(record[..n], oks[..n]) by {
        forall i | 0 <= i < n && RelaysEnd(record[..n][i]) ensures oks[..n][i] { assert record[..n][i] == record[i]; }
      }
      FinalStatusIsExplained(start, record[..n], oks[..n]);
      var k := Replay(start, record[..n], oks[..n]);
      if IsRelay(record[n]) {
        RelayExplained(k, record[n].command.event, oks[n]);
        HandleRelays(k, record[n], oks[n]);
      } else {
        OthersExplained(k, record[n], oks[n]);
      }
    }
  }

  lemma HandleRelays(k: Kept, e: Entry, ok: bool)
    requires IsRelay(e)
    ensures Handle(k, e, ok) == Relay(k, e.command.event, ok)
  {
  }

  // ---- and exactly when it has it ---------------------------------------------------------

  /** A valid event of this type, relayed. */
  predicate Relays(e: Entry, t: EventType) {
    IsRelay(e) && !Malformed(e.command.event) && HasType(e.command.event, t)
  }

  predicate Relayed(record: seq<Entry>, t: EventType) {
    exists i :: 0 <= i < |record| && Relays(record[i], t)
  }

  predicate Written(record: seq<Entry>, oks: seq<bool>, t: EventType)
    requires |oks| == |record|
  {
    exists i :: 0 <= i < |record| && oks[i] && Relays(record[i], t)
  }

  lemma RelayedStep(record: seq<Entry>, oks: seq<bool>, t: EventType)
    requires |oks| == |record| > 0
    ensures var n := |record| - 1;
            && (Relayed(record, t) <==> Relayed(record[..n], t) || Relays(record[n], t))
            && (Written(record, oks, t) <==> Written(record[..n], oks[..n], t) || (oks[n] && Relays(record[n], t)))
  {
    var n := |record| - 1;
    if Relayed(record[..n], t) {
      var i :| 0 <= i < n && Relays(record[..n][i], t);
      assert Relays(record[i], t);
    }
    if Written(record[..n], oks[..n], t) {
      var i :| 0 <= i < n && oks[..n][i] && Relays(record[..n][i], t);
      assert oks[i] && Relays(record[i], t);
    }
    if Relayed(record, t) && !Relays(record[n], t) {
      var i :| 0 <= i < |record| && Relays(record[i], t);
      assert Relays(record[..n][i], t);
    }
    if Written(record, oks, t) && !(oks[n] && Relays(record[n], t)) {
      var i :| 0 <= i < |record| && oks[i] && Relays(record[i], t);
      assert oks[..n][i] && Relays(record[..n][i], t);
    }
  }

  predicate Knows(k: Kept, start: seq<Row>, record: seq<Entry>, oks: seq<bool>)
    requires |oks| == |record|
  {
    && (k.sawError <==> Relayed(record, RunError)) && (k.sawFinished <==> Relayed(record, RunFinished))
    && (Holds(k.log, RunError) <==> Holds(start, RunError) || Written(record, oks, RunError))
    && (Holds(k.log, RunFinished) <==> Holds(start, RunFinished) || Written(record, oks, RunFinished))
  }

  lemma HandleTells(k: Kept, e: Entry, ok: bool)
    requires e.Did? ==> !e.command.Fail? && !e.command.FinishStream?
    ensures var k' := Handle(k, e, ok);
            && (k'.sawError <==> k.sawError || Relays(e, RunError))
            && (k'.sawFinished <==> k.sawFinished || Relays(e, RunFinished))
            && (Holds(k'.log, RunError) <==> Holds(k.log, RunError) || (ok && Relays(e, RunError)))
            && (Holds(k'.log, RunFinished) <==> Holds(k.log, RunFinished) || (ok && Relays(e, RunFinished)))
  {
    if IsRelay(e) {
      HoldsGrows(k.log, Row(k.seqNo + 1, e.command.event), RunError);
      HoldsGrows(k.log, Row(k.seqNo + 1, e.command.event), RunFinished);
    }
  }

  /** The flags know what was relayed, the log holds what it held and what was written. */
  lemma {:induction false} FlagsAndLog(start: Kept, record: seq<Entry>, oks: seq<bool>)
    requires |oks| == |record| && Unended(record) && !start.sawError && !start.sawFinished
    ensures Knows(Replay(start, record, oks), start.log, record, oks)
  {
    hide Handle, Holds, Relays, Relayed, Written;
    if record == [] {
      NothingTold();
    } else {
      var n := |record| - 1;
      assert Unended(record[..n]) by { assert forall i :: 0 <= i < n ==> record[..n][i] == record[i]; }
      FlagsAndLog(start, record[..n], oks[..n]);
      HandleTells(Replay(start, record[..n], oks[..n]), record[n], oks[n]);
      RelayedStep(record, oks, RunError);
      RelayedStep(record, oks, RunFinished);
    }
  }

  lemma NothingTold()
    ensures forall t :: !Relayed([], t) && !Written([], [], t)
  {
  }

  /** A provider's stream ends and that is written: a run that ends `failed` has a RUN_ERROR
      in its log exactly when it relayed none, or one it relayed was written, or there was
      one before; and one that ends `completed` has its RUN_FINISHED exactly when one it
      relayed was written, or there was one before. */
  lemma FinishExplainedExactlyWhen(start: Kept, record: seq<Entry>, oks: seq<bool>, cancelRequested: bool)
    requires |oks| == |record| && Unended(record) && !start.sawError && !start.sawFinished
    ensures var k := Replay(start, record, oks);
            var k' := Finish(k, cancelRequested, true);
            match FinalStatus(k, cancelRequested)
            case Failed =>
              Holds(k'.log, RunError) <==>
                !Relayed(record, RunError) || Written(record, oks, RunError) || Holds(start.log, RunError)
            case Completed =>
              Holds(k'.log, RunFinished) <==> Written(record, oks, RunFinished) || Holds(start.log, RunFinished)
            case _ => k'.log == k.log
  {
    hide Holds, Relayed, Written, RunErrorOf;
    FlagsAndLog(start, record, oks);
    var k := Replay(start, record, oks);
    var event := RunErrorOf(ProviderStreamEndedWithoutFinishing, STREAM_ENDED);
    HoldsGrows(k.log, Row(k.seqNo + 1, event), RunError);
    OwnErrorIsOne(ProviderStreamEndedWithoutFinishing, STREAM_ENDED);
  }

  lemma OwnErrorIsOne(code: FailCode, message: string)
    ensures HasType(RunErrorOf(code, message), RunError)
  {
  }

  /** When one was relayed and none was written, the code does leave a failed run with no
      reason: the relayed `RUN_ERROR` was noted but not stored, so the finish does not
      write one either. */
  lemma AFailureCanGoUnexplained(key: Key)
    ensures var boom := Event(Known(RunError), true, "", "", "", "boom", NoCode);
            var record := [Did(Offer, None, false), Did(Claim, Some(key), false),
                           Did(RelayEvent(boom), Some(key), false), Did(FinishStream, Some(key), false)];
            var k := Replay(Handed([]), record, [true, true, false, true]);
            k.status == Failed && !Holds(k.log, RunError)
  {
    var boom := Event(Known(RunError), true, "", "", "", "boom", NoCode);
    var record := [Did(Offer, None, false), Did(Claim, Some(key), false),
                   Did(RelayEvent(boom), Some(key), false), Did(FinishStream, Some(key), false)];
    var oks := [true, true, false, true];
    ReplayStep(Handed([]), record, oks, 0);
    ReplayStep(Handed([]), record, oks, 1);
    ReplayStep(Handed([]), record, oks, 2);
    ReplayStep(Handed([]), record, oks, 3);
    assert record[..0] == [] && record[..4] == record && oks[..4] == oks;
  }

  lemma ReplayStep(start: Kept, record: seq<Entry>, oks: seq<bool>, n: nat)
    requires |oks| == |record| && n < |record|
    ensures Replay(start, record[..n + 1], oks[..n + 1])
            == Handle(Replay(start, record[..n], oks[..n]), record[n], oks[n])
  {
    assert record[..n + 1][..n] == record[..n] && oks[..n + 1][..n] == oks[..n];
  }
}
