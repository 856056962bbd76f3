/** What holds of the broker between any two steps: the shape of every run and of
    its record, who owns it, what it is waiting for, and that capacity adds up.
    `Inv` is the invariant; while an owner is in the middle of a message, the runs
    it is working on (`x`) and its own thread (`busy`) are exempt from parts of it. */
module BrokerInvariant {
  import opened Vocabulary
  import opened BrokerSpec

  // ---- messages in an inbox ---------------------------------------------------

  predicate About(m: Message, r: RunId) {
    !m.Poke? && m.run == r
  }

  predicate IsFail(m: Message, r: RunId) {
    m.Trusted? && m.run == r && m.command.Fail?
  }

  /** The end of the run is already posted. */
  predicate FailIn(inbox: seq<Message>, r: RunId) {
    exists i :: 0 <= i < |inbox| && IsFail(inbox[i], r)
  }

  predicate IsStatement(m: Message, r: RunId) {
    (m.Answered? || m.Said?) && m.run == r
  }

  /** What providers have said about `r` and the owner has not read yet. */
  function Statements(inbox: seq<Message>, r: RunId): seq<Message> {
    if inbox == [] then []
    else (if IsStatement(inbox[0], r) then [inbox[0]] else []) + Statements(inbox[1..], r)
  }

  lemma {:induction false} StatementsAppend(a: seq<Message>, b: seq<Message>, r: RunId)
    ensures Statements(a + b, r) == Statements(a, r) + Statements(b, r)
  {
    if a == [] {
      assert a + b == b;
    } else {
      StatementsAppend(a[1..], b, r);
      assert a + b == [a[0]] + (a[1..] + b);
      assert (a + b)[1..] == a[1..] + b;
      assert (a + b)[0] == a[0];
    }
  }

  lemma {:induction false} NoStatements(b: seq<Message>, r: RunId)
    requires forall i :: 0 <= i < |b| ==> !IsStatement(b[i], r)
    ensures Statements(b, r) == []
  {
    if b != [] {
      assert forall i :: 0 <= i < |b[1..]| ==> b[1..][i] == b[i + 1];
      NoStatements(b[1..], r);
    }
  }

  // ---- the record ---------------------------------------------------------------

  /** The provider's own words on a record: what it relayed, and that it finished. */
  function Speech(record: seq<Entry>): seq<Command> {
    if record == [] then []
    else
      Speech(record[..|record| - 1])
      + (var e := record[|record| - 1];
         if e.Did? && (e.command.RelayEvent? || e.command.FinishStream?) then [e.command] else [])
  }

  /** What `k` said in `ms`, in order. */
  function SaidBy(ms: seq<Message>, k: Key): seq<Command> {
    if ms == [] then []
    else
      SaidBy(ms[..|ms| - 1], k)
      + (var m := ms[|ms| - 1]; if m.Said? && m.origin == k then [m.command] else [])
  }

  /** The same reading of a record while it grows. */
  lemma SpeechGrows(record: seq<Entry>, e: Entry)
    ensures Speech(record + [e]) ==
            Speech(record) + (if e.Did? && (e.command.RelayEvent? || e.command.FinishStream?) then [e.command] else [])
  {
    assert (record + [e])[..|record|] == record;
  }

  lemma SaidByGrows(ms: seq<Message>, m: Message, k: Key)
    ensures SaidBy(ms + [m], k) == SaidBy(ms, k) + (if m.Said? && m.origin == k then [m.command] else [])
  {
    assert (ms + [m])[..|ms|] == ms;
  }

  predicate IsCommand(e: Entry, holder: Option<Key>) {
    e.Did? && e.holder == holder
  }

  predicate CancelRecorded(record: seq<Entry>) {
    exists i :: 0 <= i < |record| && record[i].Did? && record[i].command.RequestCancel?
  }

  /** `Offer Claim (Relay | RequestCancel)*`, held by `k`, nothing malformed yet. */
  predicate HeldRecord(record: seq<Entry>, k: Key) {
    && |record| >= 2
    && IsCommand(record[0], None) && record[0].command.Offer?
    && IsCommand(record[1], Some(k)) && record[1].command.Claim?
    && forall i :: 2 <= i < |record| ==> MidEntry(record[i], k) && !Poisons(record[i])
  }

  predicate MidEntry(e: Entry, k: Key) {
    IsCommand(e, Some(k)) && (e.command.RequestCancel? || e.command.RelayEvent?)
  }

  predicate Poisons(e: Entry) {
    e.Did? && e.command.RelayEvent? && Malformed(e.command.event)
  }

  predicate LastWord(e: Entry, holder: Option<Key>) {
    && IsCommand(e, holder)
    && (e.command.Fail? || (if holder.Some? then e.command.FinishStream? else e.command.RequestCancel?))
  }

  /** `Offer? (Fail | RequestCancel)`: nobody ever held the run. */
  predicate UntakenRecord(record: seq<Entry>) {
    || (|record| == 1 && LastWord(record[0], None))
    || (|record| == 2 && IsCommand(record[0], None) && record[0].command.Offer? && LastWord(record[1], None))
  }

  /** `Offer Claim (Relay | RequestCancel)* (FinishStream | Fail)`, held by `k` throughout;
      a malformed event is the last thing relayed, and ends the run for that reason. */
  predicate TakenRecord(record: seq<Entry>, k: Key) {
    && |record| >= 3
    && IsCommand(record[0], None) && record[0].command.Offer?
    && IsCommand(record[1], Some(k)) && record[1].command.Claim?
    && LastWord(record[|record| - 1], Some(k))
    && forall i :: 2 <= i < |record| - 1 ==>
         MidEntry(record[i], k)
         && (Poisons(record[i]) ==>
             i == |record| - 2 && record[i + 1].command == Fail(ProviderSentMalformedEvent, POISON))
  }

  // ---- one run ----------------------------------------------------------------------

  /** Waiting for its turn: never offered, nothing on its record. */
  predicate Waiting(run: Run) {
    Idle(run) && run.offeredConn.None? && run.offerId == 0 && run.record == [] && !run.notedAbnormal && !run.clockDue
  }

  /** Offered, and the verdict is still out. */
  predicate UnderOffer(run: Run) {
    && run.verdictOpen && run.claimedBy.None? && run.offeredTo.Some? && run.offeredConn.Some?
    && run.offeredConn.value.key == run.offeredTo.value
    && run.offerId == 1 && !run.notedAbnormal
    && |run.record| == 1 && IsCommand(run.record[0], None) && run.record[0].command.Offer?
  }

  /** Claimed by `k`: everything said on its record is what `k` said behind its verdict. */
  predicate HeldBy(r: RunId, run: Run, k: Key) {
    var holds :=
      && run.claimedBy == Some(k) && run.offeredTo == Some(k) && !run.verdictOpen && run.offeredConn.Some?
      && run.offeredConn.value.key == k
      && run.offerId == 1 && HeldRecord(run.record, k)
      && SpokenBy(r, run, k);
    holds
  }

  predicate SpokenBy(r: RunId, run: Run, k: Key) {
    && 1 <= run.claimedAt <= |run.heard|
    && run.heard[run.claimedAt - 1] == Answered(r, k, Accepted)
    && Speech(run.record) == SaidBy(run.heard[run.claimedAt..], k)
  }

  predicate RunShape(r: RunId, run: Run) {
    && (Waiting(run) || UnderOffer(run) || (run.claimedBy.Some? && HeldBy(r, run, run.claimedBy.value)))
  }

  /** A run that is over: its record is complete, and its stream ended once, last. */
  predicate DoneShape(r: RunId, run: Run) {
    var holds :=
      && run.heard <= run.posted
      && |run.record| >= 1 && run.record[|run.record| - 1] == EndOfStream
      && var told := run.record[..|run.record| - 1];
         if run.claimedBy.None? then UntakenRecord(told)
         else TakenRecord(told, run.claimedBy.value)
              && 1 <= run.claimedAt <= |run.heard|
              && run.heard[run.claimedAt - 1] == Answered(r, run.claimedBy.value, Accepted)
              && Speech(told) == SaidBy(run.heard[run.claimedAt..], run.claimedBy.value);
    holds
  }

  // ---- a run and its owner ------------------------------------------------------------

  /** Where a run is: not yet read, in the queue, or beside the turn it joined. Only
      the head of the queue, or an interjection beside it, is offered or claimed. */
  predicate Placed(r: RunId, run: Run, h: ThreadHandler) {
    if r !in h.live then Queued(r) in h.inbox && Idle(run)
    else if r in h.queue then Idle(run) || (h.queue[0] == r && !run.isInterjection)
    else !Idle(run) && run.isInterjection
  }

  /** An open verdict has its clock running, or its lapse is posted. */
  predicate Timed(r: RunId, run: Run, inbox: seq<Message>) {
    run.verdictOpen ==> run.clockDue || OfferLapsed(r, run.offerId) in inbox
  }

  /** A held run's agent is served, or the end of the run is posted. */
  predicate Attended(r: RunId, run: Run, inbox: seq<Message>, served: bool) {
    run.claimedBy.Some? ==> served || FailIn(inbox, r)
  }

  /** A cancel is never lost. */
  predicate CancelKept(r: RunId, run: Run, inbox: seq<Message>) {
    run.cancelRequested ==>
      run.verdictOpen || CancelRecorded(run.record) || CancelAsked(r) in inbox || FailIn(inbox, r)
  }

  predicate Heard(r: RunId, run: Run, inbox: seq<Message>) {
    run.posted == run.heard + Statements(inbox, r)
  }

  /** The last sweep came too early to give up on the run, or it did. */
  predicate NotOverdue(r: RunId, run: Run, inbox: seq<Message>, served: bool, slack: int) {
    Idle(run) && !served && !FailIn(inbox, r) ==> 0 < slack
  }

  /** How far the last sweep was from giving up on an unserved run. */
  function Slack(s: State, run: Run): int {
    Reference(s, run) + s.timeout - s.lastSweep
  }

  predicate Fits(r: RunId, run: Run, h: ThreadHandler, served: bool, slack: int) {
    var holds :=
      && RunShape(r, run)
      && Placed(r, run, h)
      && Timed(r, run, h.inbox)
      && Attended(r, run, h.inbox, served)
      && CancelKept(r, run, h.inbox)
      && Heard(r, run, h.inbox)
      && NotOverdue(r, run, h.inbox, served, slack);
    holds
  }

  /** Whether run `r` has already cost some provider a mark. */
  predicate Marked(ledger: seq<Mark>, r: RunId) {
    exists i :: 0 <= i < |ledger| && ledger[i].run == r
  }

  /** A run that is still waiting for its turn has not been passed by a later one. */
  predicate NotPassed(offers: seq<OfferNote>, run: Run) {
    Idle(run) && run.addressed.None? ==>
      forall i :: 0 <= i < |offers| && offers[i].ordinary && offers[i].thread == run.thread ==>
        offers[i].arrival < run.arrival
  }

  predicate Clean(ledger: seq<Mark>, offers: seq<OfferNote>, r: RunId, run: Run) {
    (Marked(ledger, r) ==> run.notedAbnormal) && NotPassed(offers, run)
  }

  predicate RunOK(s: State, r: RunId)
    requires r in s.runs
  {
    var run := s.runs[r];
    && run.thread in s.threads
    && Clean(s.ledger, s.offers, r, run)
    && Fits(r, run, s.threads[run.thread], run.agent in s.serving, Slack(s, run))
  }

  // ---- threads, roster, capacity ---------------------------------------------------------

  ghost predicate ThreadShape(runs: map<RunId, Run>, h: ThreadHandler, t: ThreadId) {
    var holds :=
      && Distinct(h.queue)
      && (forall r :: r in h.queue ==> r in h.live)
      && (forall r :: r in h.live ==> r in runs && runs[r].thread == t)
      && InboxShape(runs, h, t);
    holds
  }

  ghost predicate InboxShape(runs: map<RunId, Run>, h: ThreadHandler, t: ThreadId) {
    && (forall i :: 0 <= i < |h.inbox| ==> MessageOK(runs, h, t, h.inbox[i]))
    && (forall i, j :: 0 <= i < j < |h.inbox| && h.inbox[j].Queued? ==> !About(h.inbox[i], h.inbox[j].run))
  }

  predicate MessageOK(runs: map<RunId, Run>, h: ThreadHandler, t: ThreadId, m: Message) {
    match m
    case Queued(r) => r in runs && runs[r].thread == t && r !in h.live
    case Trusted(_, c) => c.Fail?
    case Said(_, _, c) => c.RelayEvent? || c.FinishStream?
    case _ => true
  }

  /** A head that could be offered does not go unnoticed. */
  predicate Awake(s: State, t: ThreadId)
    requires t in s.threads
  {
    var h := s.threads[t];
    h.queue != [] && h.queue[0] in s.runs && Idle(s.runs[h.queue[0]]) && CanOffer(s, s.runs[h.queue[0]].agent)
    ==> h.inbox != [] || s.workToDo
  }

  predicate Alive(h: ThreadHandler) {
    h.live == {} ==> h.inbox != []
  }

  ghost predicate Roster(serving: map<AgentRef, Key>, order: seq<AgentRef>, providers: map<Key, Provider>) {
    var holds :=
      && Distinct(order)
      && (forall a :: a in order <==> a in serving)
      && (forall a :: a in serving ==> serving[a] in providers && providers[serving[a]].connection.Some?)
      && (forall k :: k in providers && providers[k].connection.Some? ==> providers[k].connection.value.key == k);
    holds
  }

  ghost predicate Books(s: State) {
    var holds :=
      && Distinct(s.arrivals)
      && (forall r :: r in s.arrivals <==> r in s.runs || r in s.done)
      && s.runs.Keys !! s.done.Keys
      && (forall r :: r in s.runs ==> s.runs[r].arrival < |s.arrivals| && s.arrivals[s.runs[r].arrival] == r)
      && s.lastSweep <= s.now && 0 < s.timeout && (s.running ==> s.now <= s.lastSweep + s.timeout)
      && (!s.running ==> s.runs == map[]);
    holds
  }

  /** The runs that hold a place at `k`. */
  ghost function Holding(runs: map<RunId, Run>, k: Key): set<RunId> {
    set r | r in runs && runs[r].offeredTo == Some(k)
  }

  ghost predicate Capacity(runs: map<RunId, Run>, providers: map<Key, Provider>) {
    forall k :: ProviderOf(providers, k).inFlight == |Holding(runs, k)|
  }

  function Count(ledger: seq<Mark>, k: Key, c: Counter): nat {
    if ledger == [] then 0
    else
      Count(ledger[..|ledger| - 1], k, c)
      + (var m := ledger[|ledger| - 1]; if m.key == k && m.counter == c then 1 else 0)
  }

  /** Every conduct counter is the number of marks of its kind, and no run made two. */
  ghost predicate Ledger(ledger: seq<Mark>, providers: map<Key, Provider>, arrivals: seq<RunId>) {
    var holds :=
      && (forall i, j :: 0 <= i < j < |ledger| ==> ledger[i].run != ledger[j].run)
      && (forall i :: 0 <= i < |ledger| ==> ledger[i].run in arrivals)
      && (forall k, c :: CountOf(ProviderOf(providers, k).counters, c) == Count(ledger, k, c));
    holds
  }

  /** `r` is a tracked run that addressed nobody. */
  predicate Ordinary(runs: map<RunId, Run>, r: RunId) {
    r in runs && runs[r].addressed.None?
  }

  predicate Before(runs: map<RunId, Run>, q: RunId, r: RunId) {
    q in runs && r in runs ==> runs[q].arrival < runs[r].arrival
  }

  /** The ordinary runs of a thread wait in the order they came in, first in its
      queue and then, unread, in its inbox. */
  ghost predicate InLine(runs: map<RunId, Run>, h: ThreadHandler) {
    var holds :=
      && (forall i, j :: 0 <= i < j < |h.queue| && Ordinary(runs, h.queue[i]) && Ordinary(runs, h.queue[j]) ==>
            Before(runs, h.queue[i], h.queue[j]))
      && (forall i, j ::
            0 <= i < |h.queue| && 0 <= j < |h.inbox| && h.inbox[j].Queued? && Ordinary(runs, h.queue[i]) ==>
            Before(runs, h.queue[i], h.inbox[j].run))
      && (forall i, j :: 0 <= i < j < |h.inbox| && h.inbox[i].Queued? && h.inbox[j].Queued? ==>
            Before(runs, h.inbox[i].run, h.inbox[j].run));
    holds
  }

  ghost predicate Lines(runs: map<RunId, Run>, threads: map<ThreadId, ThreadHandler>) {
    forall t :: t in threads ==> InLine(runs, threads[t])
  }

  /** Two ordinary offers on one thread. */
  predicate SameLine(a: OfferNote, b: OfferNote) {
    a.ordinary && b.ordinary && a.thread == b.thread
  }

  ghost predicate OffersOK(offers: seq<OfferNote>, arrivals: seq<RunId>) {
    var holds :=
      && (forall i :: 0 <= i < |offers| ==>
            offers[i].arrival < |arrivals| && arrivals[offers[i].arrival] == offers[i].run)
      && (forall i, j :: 0 <= i < j < |offers| && SameLine(offers[i], offers[j]) ==>
            offers[i].arrival < offers[j].arrival);
    holds
  }

  /** Whether an owner is in the middle of a message: nobody is, thread `t`'s owner
      is, or it is and has given a place back without making news of it yet. */
  datatype Focus = Nobody | Busy(t: ThreadId) | Freeing(t: ThreadId)

  predicate On(busy: Focus, t: ThreadId) {
    !busy.Nobody? && busy.t == t
  }

  ghost predicate Working(runs: map<RunId, Run>, threads: map<ThreadId, ThreadHandler>, x: set<RunId>, busy: Focus) {
    forall r :: r in x ==>
      r in runs && On(busy, runs[r].thread) && runs[r].thread in threads && r in threads[runs[r].thread].live
  }

  ghost predicate ThreadsOK(runs: map<RunId, Run>, threads: map<ThreadId, ThreadHandler>) {
    forall t :: t in threads ==> ThreadShape(runs, threads[t], t)
  }

  ghost predicate Rested(s: State, busy: Focus) {
    forall t :: t in s.threads && !On(busy, t) ==> Alive(s.threads[t]) && (busy.Freeing? || Awake(s, t))
  }

  ghost predicate RunsOK(s: State, x: set<RunId>) {
    forall r :: r in s.runs && r !in x ==> RunOK(s, r)
  }

  ghost predicate DoneOK(done: map<RunId, Run>) {
    forall r :: r in done ==> DoneShape(r, done[r])
  }

  /** The invariant, named as one value so that proofs carry it whole. */
  ghost predicate Inv(s: State, x: set<RunId>, busy: Focus) {
    var holds :=
      && Books(s) && Roster(s.serving, s.servingOrder, s.providers) && Capacity(s.runs, s.providers)
      && Working(s.runs, s.threads, x, busy) && ThreadsOK(s.runs, s.threads) && Rested(s, busy)
      && RunsOK(s, x) && DoneOK(s.done)
      && Ledger(s.ledger, s.providers, s.arrivals) && Lines(s.runs, s.threads) && OffersOK(s.offers, s.arrivals);
    holds
  }

  lemma InvThread(s: State, x: set<RunId>, busy: Focus, t: ThreadId)
    requires Inv(s, x, busy) && t in s.threads
    ensures ThreadShape(s.runs, s.threads[t], t)
    ensures forall r :: r in s.threads[t].live ==> r in s.runs && s.runs[r].thread == t
    ensures Distinct(s.threads[t].queue) && forall r :: r in s.threads[t].queue ==> r in s.threads[t].live
    ensures forall i :: 0 <= i < |s.threads[t].inbox| ==> MessageOK(s.runs, s.threads[t], t, s.threads[t].inbox[i])
  {
  }

  lemma InvRun(s: State, x: set<RunId>, busy: Focus, r: RunId)
    requires Inv(s, x, busy) && r in s.runs && r !in x
    ensures RunOK(s, r)
    ensures s.runs[r].thread in s.threads && RunShape(r, s.runs[r])
    ensures Placed(r, s.runs[r], s.threads[s.runs[r].thread])
  {
  }

  lemma RunShapeOf(s: State, r: RunId)
    requires r in s.runs && RunOK(s, r)
    ensures RunShape(r, s.runs[r])
    ensures s.runs[r].claimedBy.Some? ==> HeldBy(r, s.runs[r], s.runs[r].claimedBy.value)
    ensures s.runs[r].verdictOpen ==> UnderOffer(s.runs[r])
    ensures Idle(s.runs[r]) ==> Waiting(s.runs[r])
    ensures s.runs[r].heard <= s.runs[r].posted
    ensures Marked(s.ledger, r) ==> s.runs[r].notedAbnormal
  {
  }

  // ---- noise: what other parts of the system add to an inbox, and what they take away -----

  predicate NoiseMessage(m: Message) {
    m.Poke? || (m.Trusted? && m.command.Fail?)
  }

  ghost predicate NoisyInbox(a: seq<Message>, b: seq<Message>) {
    a <= b && forall i :: |a| <= i < |b| ==> NoiseMessage(b[i])
  }

  /** Pokes and posted ends, agents taken out of service, marks: everything that may
      happen to a state without touching a run or a queue. */
  ghost predicate Noise(s: State, s': State) {
    && s'.runs == s.runs && s'.done == s.done && s'.arrivals == s.arrivals && s'.offers == s.offers
    && s'.ledger == s.ledger
    && s'.running == s.running && s'.now == s.now && s'.timeout == s.timeout && s'.tolerance == s.tolerance
    && s'.lastSweep == s.lastSweep
    && (s.workToDo ==> s'.workToDo)
    && s'.threads.Keys == s.threads.Keys
    && (forall t :: t in s.threads ==>
          && s'.threads[t].queue == s.threads[t].queue && s'.threads[t].live == s.threads[t].live
          && s'.threads[t].agent == s.threads[t].agent
          && NoisyInbox(s.threads[t].inbox, s'.threads[t].inbox))
    && (Roster(s.serving, s.servingOrder, s.providers) ==> Roster(s'.serving, s'.servingOrder, s'.providers))
    && (forall a :: a in s'.serving ==> a in s.serving && s'.serving[a] == s.serving[a])
    && s'.providers == s.providers
    && (forall r :: r in s.runs && s.runs[r].claimedBy.Some? && s.runs[r].agent in s.serving
                    && s.runs[r].agent !in s'.serving && s.runs[r].thread in s.threads && r in s.arrivals ==>
          FailIn(s'.threads[s.runs[r].thread].inbox, r))
    && (forall a :: a in s.serving && a !in s'.serving ==> a in s'.unservedSince && s'.unservedSince[a] == s.now)
    && (forall a :: a !in s.serving ==>
          (a in s'.unservedSince <==> a in s.unservedSince)
          && (a in s.unservedSince ==> s'.unservedSince[a] == s.unservedSince[a]))
  }

  lemma FailInGrows(a: seq<Message>, b: seq<Message>, r: RunId)
    requires a <= b && FailIn(a, r)
    ensures FailIn(b, r)
  {
    var i :| 0 <= i < |a| && IsFail(a[i], r);
    assert IsFail(b[i], r);
  }

  lemma NoiseTransitive(a: State, b: State, c: State)
    requires Noise(a, b) && Noise(b, c)
    ensures Noise(a, c)
  {
    forall r | r in a.runs && a.runs[r].claimedBy.Some? && a.runs[r].agent in a.serving
               && a.runs[r].agent !in c.serving && a.runs[r].thread in a.threads && r in a.arrivals
      ensures FailIn(c.threads[a.runs[r].thread].inbox, r)
    {
      if a.runs[r].agent !in b.serving {
        FailInGrows(b.threads[a.runs[r].thread].inbox, c.threads[a.runs[r].thread].inbox, r);
      }
    }
  }

  lemma NoisyFits(r: RunId, run: Run, h: ThreadHandler, h': ThreadHandler, served: bool, served': bool, slack: int,
                  slack': int)
    requires Fits(r, run, h, served, slack)
    requires h'.queue == h.queue && h'.live == h.live && NoisyInbox(h.inbox, h'.inbox)
    requires served == served' || FailIn(h'.inbox, r) || (run.claimedBy.None? && 0 < slack')
    requires served == served' ==> served || slack' == slack
    ensures Fits(r, run, h', served', slack')
  {
    var a, b := h.inbox, h'.inbox;
    assert b == a + b[|a|..];
    StatementsAppend(a, b[|a|..], r);
    NoStatements(b[|a|..], r);
    if FailIn(a, r) { FailInGrows(a, b, r); }
  }

  lemma NoiseKeepsRun(s: State, s': State, r: RunId)
    requires Noise(s, s') && Books(s) && r in s.runs && RunOK(s, r)
    ensures RunOK(s', r)
  {
    hide Fits;
    var run := s.runs[r];
    NoisyFits(r, run, s.threads[run.thread], s'.threads[run.thread], run.agent in s.serving, run.agent in s'.serving,
              Slack(s, run), Slack(s', run));
  }

  lemma NoiseKeepsThread(s: State, s': State, t: ThreadId)
    requires Noise(s, s') && t in s.threads && ThreadShape(s.runs, s.threads[t], t)
    ensures ThreadShape(s'.runs, s'.threads[t], t)
    ensures Alive(s.threads[t]) ==> Alive(s'.threads[t])
    ensures Awake(s, t) ==> Awake(s', t)
  {
    var a, b := s.threads[t].inbox, s'.threads[t].inbox;
    forall i, j | 0 <= i < j < |b| && b[j].Queued?
      ensures !About(b[i], b[j].run)
    {
      assert j < |a|;
      assert b[j] == a[j] && b[i] == a[i];
    }
    forall i | 0 <= i < |b|
      ensures MessageOK(s'.runs, s'.threads[t], t, b[i])
    {
      if i < |a| { assert b[i] == a[i]; }
    }
  }

  lemma NoiseKeepsRuns(s: State, s': State, x: set<RunId>)
    requires Noise(s, s') && Books(s) && RunsOK(s, x)
    ensures RunsOK(s', x) && Books(s')
  {
    forall r | r in s'.runs && r !in x ensures RunOK(s', r) { NoiseKeepsRun(s, s', r); }
  }

  lemma NoiseKeepsThreads(s: State, s': State, busy: Focus)
    requires Noise(s, s') && ThreadsOK(s.runs, s.threads) && Rested(s, busy)
    ensures ThreadsOK(s'.runs, s'.threads) && Rested(s', busy)
  {
    forall t | t in s'.threads
      ensures ThreadShape(s'.runs, s'.threads[t], t)
      ensures !On(busy, t) ==> Alive(s'.threads[t]) && (busy.Freeing? || Awake(s', t))
    { NoiseKeepsThread(s, s', t); }
  }

  lemma NoiseKeepsPlaces(s: State, s': State, x: set<RunId>, busy: Focus)
    requires Noise(s, s') && Working(s.runs, s.threads, x, busy) && Lines(s.runs, s.threads)
    ensures Working(s'.runs, s'.threads, x, busy) && Lines(s'.runs, s'.threads)
  {
    forall t | t in s'.threads ensures InLine(s'.runs, s'.threads[t]) {
      InLineGrows(s.runs, s.threads[t], s'.threads[t]);
    }
  }

  lemma InLineGrows(runs: map<RunId, Run>, h: ThreadHandler, h': ThreadHandler)
    requires InLine(runs, h) && h'.queue == h.queue && h.inbox <= h'.inbox
    requires forall i :: |h.inbox| <= i < |h'.inbox| ==> !h'.inbox[i].Queued?
    ensures InLine(runs, h')
  {
    assert forall i :: 0 <= i < |h'.inbox| && h'.inbox[i].Queued? ==> i < |h.inbox| && h.inbox[i] == h'.inbox[i];
  }

  lemma NoiseKeeps(s: State, s': State, x: set<RunId>, busy: Focus)
    requires Inv(s, x, busy) && Noise(s, s')
    ensures Inv(s', x, busy)
  {
    hide Books, Roster, Capacity, Working, ThreadsOK, Rested, RunsOK, DoneOK, Ledger, Lines, OffersOK;
    NoiseKeepsRuns(s, s', x);
    NoiseKeepsThreads(s, s', busy);
    NoiseKeepsPlaces(s, s', x, busy);
  }
}
