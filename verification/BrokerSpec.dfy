/** What each operation of the run broker does, as functions from state to state.
    `Broker.RunBroker` performs them in place; `BrokerInvariant` and the modules
    after it prove what every sequence of them keeps. */
module BrokerSpec {
  import opened Vocabulary

  // ---- the values the broker holds ------------------------------------------

  datatype Verdict = Accepted | Declined | Refused(reason: string)

  datatype Message =
    | Queued(run: RunId)
    | Answered(run: RunId, key: Key, verdict: Verdict)
    | Said(run: RunId, origin: Key, command: Command)
    | Trusted(run: RunId, command: Command)
    | CancelAsked(run: RunId)
    | OfferLapsed(run: RunId, offerId: nat)
    | Undelivered(run: RunId)
    | Poke

  /** One connection of a provider; `id` tells two connections of one key apart. */
  datatype Connection = Connection(id: nat, key: Key, limit: Option<int>)

  datatype Counter = Misdeclared | Abandoned | Undeliverable | Unanswered

  datatype Counters = Counters(misdeclared: nat, abandoned: nat, undelivered: nat, unanswered: nat)

  datatype Provider = Provider(connection: Option<Connection>, declared: Option<int>, inFlight: nat, counters: Counters)

  /** One run, from queued to forgotten. The last four fields are its history:
      what was put on its record, what its provider's doors posted about it, what
      of that the owner has read while the run was live, and how much of that had
      been read when the claim was written. */
  datatype Run = Run(
    agent: AgentRef, thread: ThreadId, addressed: Option<RunId>, validInput: bool,
    queuedAt: int, arrival: nat,
    offeredTo: Option<Key>, offeredConn: Option<Connection>, offerId: nat,
    verdictOpen: bool, clockDue: bool, isInterjection: bool,
    claimedBy: Option<Key>, notedAbnormal: bool, cancelRequested: bool,
    record: seq<Entry>, posted: seq<Message>, heard: seq<Message>, claimedAt: nat)

  /** One thread's owner. `live` holds the ids of the runs it has taken in. */
  datatype ThreadHandler = ThreadHandler(agent: AgentRef, inbox: seq<Message>, queue: seq<RunId>, live: set<RunId>)

  datatype Mark = Mark(run: RunId, key: Key, counter: Counter)

  datatype OfferNote = OfferNote(run: RunId, thread: ThreadId, arrival: nat, ordinary: bool)

  /** The broker. `arrivals`, `done`, `ledger` and `offers` are history: every run
      ever enqueued, the runs already forgotten, every conduct mark, every offer. */
  datatype State = State(
    running: bool, now: int, lastSweep: int, timeout: int, tolerance: Option<int>,
    runs: map<RunId, Run>, arrivals: seq<RunId>, done: map<RunId, Run>,
    threads: map<ThreadId, ThreadHandler>,
    serving: map<AgentRef, Key>, servingOrder: seq<AgentRef>,
    providers: map<Key, Provider>, unservedSince: map<AgentRef, int>,
    workToDo: bool, ledger: seq<Mark>, offers: seq<OfferNote>)

  // ---- reading ----------------------------------------------------------------

  const POISON := "provider sent a malformed AG-UI event"
  const INVALID_INPUT := "input does not validate as RunAgentInput"

  const NO_MARKS: Counters := Counters(0, 0, 0, 0)

  function ProviderOf(providers: map<Key, Provider>, k: Key): Provider {
    if k in providers then providers[k] else Provider(None, None, 0, NO_MARKS)
  }

  predicate HasRoom(p: Provider) {
    p.declared.None? || p.inFlight < p.declared.value
  }

  function Serving(s: State, a: AgentRef): Option<Connection> {
    if a in s.serving then ProviderOf(s.providers, s.serving[a]).connection else None
  }

  function AgentsServedBy(serving: map<AgentRef, Key>, order: seq<AgentRef>, k: Key): seq<AgentRef> {
    if order == [] then []
    else
      (if order[0] in serving && serving[order[0]] == k then [order[0]] else [])
      + AgentsServedBy(serving, order[1..], k)
  }

  function CountOf(c: Counters, which: Counter): nat {
    match which
    case Misdeclared => c.misdeclared
    case Abandoned => c.abandoned
    case Undeliverable => c.undelivered
    case Unanswered => c.unanswered
  }

  function Bump(c: Counters, which: Counter): Counters {
    match which
    case Misdeclared => c.(misdeclared := c.misdeclared + 1)
    case Abandoned => c.(abandoned := c.abandoned + 1)
    case Undeliverable => c.(undelivered := c.undelivered + 1)
    case Unanswered => c.(unanswered := c.unanswered + 1)
  }

  /** Never offered to anyone. */
  predicate Idle(run: Run) {
    run.claimedBy.None? && !run.verdictOpen && run.offeredTo.None?
  }

  predicate Live(s: State, t: ThreadId, r: RunId) {
    t in s.threads && r in s.threads[t].live && r in s.runs
  }

  // ---- posting ----------------------------------------------------------------

  function Put(h: ThreadHandler, ms: seq<Message>): ThreadHandler {
    h.(inbox := h.inbox + ms)
  }

  function PutAt(s: State, t: ThreadId, m: Message): State {
    if t in s.threads then s.(threads := s.threads[t := Put(s.threads[t], [m])]) else s
  }

  function PokeAll(s: State): State {
    s.(threads := map t | t in s.threads :: Put(s.threads[t], [Poke]))
  }

  function PokeAgent(s: State, a: AgentRef): State {
    s.(threads := map t | t in s.threads ::
         Put(s.threads[t], if s.threads[t].agent == a then [Poke] else []))
  }

  /** `Fail` messages for those of `ids` that live on thread `t`, in order. */
  function FailsOn(runs: map<RunId, Run>, ids: seq<RunId>, t: ThreadId, code: FailCode): seq<Message> {
    if ids == [] then []
    else
      (if ids[0] in runs && runs[ids[0]].thread == t then [Trusted(ids[0], Fail(code, ""))] else [])
      + FailsOn(runs, ids[1..], t, code)
  }

  function PushFails(s: State, ids: seq<RunId>, code: FailCode): State {
    s.(threads := map t | t in s.threads :: Put(s.threads[t], FailsOn(s.runs, ids, t, code)))
  }

  /** Post to a run's owner; nothing happens for an unknown run. */
  function Post(s: State, r: RunId, m: Message): State {
    if r in s.runs then PutAt(s, s.runs[r].thread, m) else s
  }

  function SetRun(s: State, r: RunId, run: Run): State {
    s.(runs := s.runs[r := run])
  }

  // ---- the doors --------------------------------------------------------------

  /** A statement a provider makes through a door: kept in the run's history. */
  function PostStatement(s: State, r: RunId, m: Message): State {
    if r in s.runs
    then Post(SetRun(s, r, s.runs[r].(posted := s.runs[r].posted + [m])), r, m)
    else s
  }

  function AnswerOffer(s: State, r: RunId, k: Key, v: Verdict): State {
    PostStatement(s, r, Answered(r, k, v))
  }

  function ReportEvent(s: State, r: RunId, e: Event, origin: Key): State {
    PostStatement(s, r, Said(r, origin, RelayEvent(e)))
  }

  function ReportFinish(s: State, r: RunId, origin: Key): State {
    PostStatement(s, r, Said(r, origin, FinishStream))
  }

  function AskCancel(s: State, r: RunId): State {
    if r in s.runs
    then Post(SetRun(s, r, s.runs[r].(cancelRequested := true)), r, CancelAsked(r))
    else s
  }

  // ---- the roster -------------------------------------------------------------

  function RegisterOne(s: State, a: AgentRef, c: Connection): State {
    s.(serving := s.serving[a := c.key],
       servingOrder := if a in s.serving then s.servingOrder else s.servingOrder + [a],
       providers := s.providers[c.key := ProviderOf(s.providers, c.key).(connection := Some(c), declared := c.limit)],
       unservedSince := s.unservedSince - {a})
  }

  function RegisterEach(s: State, mapping: seq<(AgentRef, Connection)>): State
    decreases |mapping|
  {
    if mapping == [] then s
    else RegisterEach(RegisterOne(s, mapping[0].0, mapping[0].1), mapping[1..])
  }

  function PokeEach(s: State, mapping: seq<(AgentRef, Connection)>): State
    decreases |mapping|
  {
    if mapping == [] then s
    else PokeEach(PokeAgent(s, mapping[0].0), mapping[1..])
  }

  function Register(s: State, mapping: seq<(AgentRef, Connection)>): State {
    PokeEach(RegisterEach(s, mapping).(workToDo := true), mapping)
  }

  function Without(order: seq<AgentRef>, a: AgentRef): seq<AgentRef> {
    if order == [] then []
    else (if order[0] == a then [] else [order[0]]) + Without(order[1..], a)
  }

  /** The runs of agent `a` that somebody claimed, in the order they came in. */
  function ClaimedOf(runs: map<RunId, Run>, ids: seq<RunId>, a: AgentRef): seq<RunId> {
    if ids == [] then []
    else
      (if ids[0] in runs && runs[ids[0]].agent == a && runs[ids[0]].claimedBy.Some? then [ids[0]] else [])
      + ClaimedOf(runs, ids[1..], a)
  }

  function UnregisterOne(s: State, a: AgentRef): State {
    if a !in s.serving then s
    else
      var s1 := s.(serving := s.serving - {a}, servingOrder := Without(s.servingOrder, a),
                   unservedSince := s.unservedSince[a := s.now]);
      PokeAgent(PushFails(s1, ClaimedOf(s1.runs, s1.arrivals, a), ProviderLeftHoldingIt), a)
  }

  function Unregister(s: State, agents: seq<AgentRef>): (s': State)
    ensures s'.runs == s.runs && s'.threads.Keys == s.threads.Keys
    decreases |agents|
  {
    if agents == [] then s else Unregister(UnregisterOne(s, agents[0]), agents[1..])
  }

  /** One conduct mark against `k`, caused by run `r`, and the tolerance applied. */
  function NoteAbnormal(s: State, r: RunId, k: Key, c: Counter): (s': State)
    ensures s'.runs == s.runs && s'.threads.Keys == s.threads.Keys
  {
    var p := ProviderOf(s.providers, k).(counters := Bump(ProviderOf(s.providers, k).counters, c));
    var s1 := s.(providers := s.providers[k := p], ledger := s.ledger + [Mark(r, k, c)]);
    if s.tolerance.None? || CountOf(p.counters, c) < s.tolerance.value then s1
    else Unregister(s1, AgentsServedBy(s1.serving, s1.servingOrder, k))
  }

  // ---- the record, capacity, the end of a run ----------------------------------

  function Logged(run: Run, c: Command): Run {
    run.(record := run.record + [Did(c, run.claimedBy, run.cancelRequested)])
  }

  function Log(s: State, r: RunId, c: Command): State {
    if r in s.runs then SetRun(s, r, Logged(s.runs[r], c)) else s
  }

  function GiveBack(providers: map<Key, Provider>, k: Option<Key>): map<Key, Provider> {
    if k.Some? && k.value in providers && providers[k.value].inFlight > 0
    then providers[k.value := providers[k.value].(inFlight := providers[k.value].inFlight - 1)]
    else providers
  }

  /** Gives back the place an offer took. */
  function Release(s: State, r: RunId): State
    requires r in s.runs
  {
    s.(runs := s.runs[r := s.runs[r].(offeredTo := None, offeredConn := None)],
       providers := GiveBack(s.providers, s.runs[r].offeredTo))
  }

  function RemoveFirst(q: seq<RunId>, r: RunId): seq<RunId> {
    if q == [] then [] else if q[0] == r then q[1..] else [q[0]] + RemoveFirst(q[1..], r)
  }

  /** Drops a run, gives back its place if it still holds one, and makes news of it. */
  function Forget(s: State, r: RunId): (s': State)
    ensures s'.threads.Keys == s.threads.Keys
  {
    if r !in s.runs then s
    else
      var s1 := Release(s, r);
      PokeAll(s1.(runs := s1.runs - {r}, done := s1.done[r := s1.runs[r]], workToDo := true))
  }

  /** Ends the run's stream and drops everything held for it. */
  function Settle(s: State, t: ThreadId, r: RunId): (s': State)
    requires t in s.threads && r in s.runs
    ensures s'.threads.Keys == s.threads.Keys
  {
    var h := s.threads[t];
    var run := s.runs[r];
    Forget(s.(runs := s.runs[r := run.(record := run.record + [EndOfStream], clockDue := false)],
              threads := s.threads[t := h.(live := h.live - {r}, queue := RemoveFirst(h.queue, r))]),
           r)
  }

  // ---- offers -----------------------------------------------------------------

  predicate CanOffer(s: State, a: AgentRef) {
    var c := Serving(s, a);
    c.Some? && HasRoom(ProviderOf(s.providers, c.value.key))
  }

  function InsertSecond(q: seq<RunId>, r: RunId): seq<RunId> {
    var i := if |q| < 1 then |q| else 1;
    q[..i] + [r] + q[i..]
  }

  function OfferTo(s: State, t: ThreadId, r: RunId, interjection: bool): (s': State)
    requires t in s.threads && r in s.runs
    ensures s'.threads.Keys == s.threads.Keys
  {
    var run := s.runs[r];
    var h := s.threads[t];
    if !CanOffer(s, run.agent) then
      if interjection then s.(threads := s.threads[t := h.(queue := InsertSecond(h.queue, r))]) else s
    else if !run.validInput then
      Settle(Log(s, r, Fail(InputDoesNotValidate, INVALID_INPUT)), t, r)
    else
      Offered(s, r, Serving(s, run.agent).value, interjection)
  }

  function Offered(s: State, r: RunId, c: Connection, interjection: bool): State
    requires r in s.runs
  {
    var run := s.runs[r];
    var p := ProviderOf(s.providers, c.key);
    var run' := run.(offeredTo := Some(c.key), offeredConn := Some(c), isInterjection := interjection,
                     offerId := run.offerId + 1, verdictOpen := true, clockDue := true);
    s.(runs := s.runs[r := Logged(run', Offer)],
       providers := s.providers[c.key := p.(inFlight := p.inFlight + 1)],
       offers := s.offers + [OfferNote(r, run.thread, run.arrival, run.addressed.None?)])
  }

  /** The queued runs addressed to `head`. */
  function Joining(runs: map<RunId, Run>, q: seq<RunId>, head: RunId): seq<RunId> {
    if q == [] then []
    else
      (if q[0] in runs && runs[q[0]].addressed == Some(head) then [q[0]] else [])
      + Joining(runs, q[1..], head)
  }

  function JoinOne(s: State, t: ThreadId, r: RunId): (s': State)
    ensures s'.threads.Keys == s.threads.Keys
  {
    if t in s.threads && r in s.runs then
      var h := s.threads[t];
      OfferTo(s.(threads := s.threads[t := h.(queue := RemoveFirst(h.queue, r))]), t, r, true)
    else s
  }

  function JoinEach(s: State, t: ThreadId, ids: seq<RunId>): (s': State)
    ensures s'.threads.Keys == s.threads.Keys
    decreases |ids|
  {
    if ids == [] then s else JoinEach(JoinOne(s, t, ids[0]), t, ids[1..])
  }

  function ReleaseInterjections(s: State, t: ThreadId, head: RunId): (s': State)
    requires t in s.threads
    ensures s'.threads.Keys == s.threads.Keys
  {
    var q := s.threads[t].queue;
    JoinEach(s, t, Joining(s.runs, if q == [] then [] else q[1..], head))
  }

  function DropSettled(runs: map<RunId, Run>, q: seq<RunId>): seq<RunId> {
    if q != [] && q[0] !in runs then DropSettled(runs, q[1..]) else q
  }

  lemma DropSettledHead(runs: map<RunId, Run>, q: seq<RunId>)
    ensures var d := DropSettled(runs, q); d != [] ==> d[0] in runs
  {
  }

  /** Offers the head of the queue if the turn is free. */
  function Advance(s: State, t: ThreadId): State {
    if t !in s.threads then s
    else
      var h := s.threads[t];
      var q := DropSettled(s.runs, h.queue);
      var s1 := s.(threads := s.threads[t := h.(queue := q)]);
      DropSettledHead(s.runs, h.queue);
      if q == [] || !Idle(s.runs[q[0]]) then s1
      else OfferTo(s1, t, q[0], false)
  }

  // ---- the owner reading its inbox ----------------------------------------------

  function OnQueued(s: State, t: ThreadId, r: RunId): (s': State)
    requires t in s.threads
    ensures s'.threads.Keys == s.threads.Keys
  {
    if r !in s.runs then s
    else
      var h := s.threads[t];
      var s1 := s.(threads := s.threads[t := h.(live := h.live + {r})]);
      if h.queue != [] && h.queue[0] in s.runs && s.runs[h.queue[0]].claimedBy.Some?
         && s.runs[r].addressed == Some(h.queue[0])
      then OfferTo(s1, t, r, true)
      else s1.(threads := s1.threads[t := s1.threads[t].(queue := h.queue + [r])])
  }

  /** The last word on a run that nobody took. */
  function EndUntaken(s: State, t: ThreadId, r: RunId, c: Command): (s': State)
    requires t in s.threads && r in s.runs
    ensures s'.threads.Keys == s.threads.Keys
  {
    Settle(Log(s, r, c), t, r)
  }

  function CloseVerdict(s: State, r: RunId): State
    requires r in s.runs
  {
    SetRun(s, r, s.runs[r].(verdictOpen := false, clockDue := false))
  }

  function NoteMisdeclared(s: State, r: RunId, k: Key): (s': State)
    ensures s'.runs == s.runs && s'.threads.Keys == s.threads.Keys
  {
    if HasRoom(ProviderOf(s.providers, k)) then NoteAbnormal(s, r, k, Misdeclared) else s
  }

  function OnAnswered(s: State, t: ThreadId, r: RunId, k: Key, v: Verdict): (s': State)
    requires t in s.threads
    ensures s'.threads.Keys == s.threads.Keys
  {
    if !Live(s, t, r) || !s.runs[r].verdictOpen || s.runs[r].offeredTo != Some(k) then s
    else
      var s1 := CloseVerdict(s, r);
      match v
      case Refused(reason) => EndUntaken(Release(s1, r), t, r, Fail(ProviderRefused, reason))
      case Declined =>
        if s.runs[r].cancelRequested then EndUntaken(Release(s1, r), t, r, RequestCancel)
        else EndUntaken(NoteMisdeclared(Release(s1, r), r, k), t, r, Fail(ProviderDeclined, ""))
      case Accepted => OnAccepted(s1, t, r, k)
  }

  function Claimed(run: Run, k: Key): Run {
    Logged(run.(claimedBy := Some(k), claimedAt := |run.heard|), Claim)
  }

  function OnAccepted(s: State, t: ThreadId, r: RunId, k: Key): (s': State)
    requires t in s.threads && r in s.runs
    ensures s'.threads.Keys == s.threads.Keys
  {
    var s1 := SetRun(s, r, Claimed(s.runs[r], k));
    if Serving(s1, s1.runs[r].agent) != s1.runs[r].offeredConn then
      Post(s1, r, Trusted(r, Fail(ProviderLeftHoldingIt, "")))
    else
      var s2 := if s1.runs[r].isInterjection then s1 else ReleaseInterjections(s1, t, r);
      if s1.runs[r].cancelRequested then Log(s2, r, RequestCancel) else s2
  }

  function RecordAndMaybeSettle(s: State, t: ThreadId, r: RunId, c: Command): (s': State)
    requires t in s.threads && r in s.runs
    ensures s'.threads.Keys == s.threads.Keys
  {
    var s1 := Log(s, r, c);
    if c.RelayEvent? && Malformed(c.event) then
      Settle(Log(s1, r, Fail(ProviderSentMalformedEvent, POISON)), t, r)
    else if c.FinishStream? then Settle(s1, t, r)
    else s1
  }

  function OnSaid(s: State, t: ThreadId, r: RunId, origin: Key, c: Command): (s': State)
    requires t in s.threads
    ensures s'.threads.Keys == s.threads.Keys
  {
    if !Live(s, t, r) || s.runs[r].claimedBy != Some(origin) then s
    else RecordAndMaybeSettle(s, t, r, c)
  }

  function OnCancelAsked(s: State, t: ThreadId, r: RunId): (s': State)
    requires t in s.threads
    ensures s'.threads.Keys == s.threads.Keys
  {
    if !Live(s, t, r) then s
    else
      var s1 := SetRun(s, r, s.runs[r].(cancelRequested := true));
      if s1.runs[r].verdictOpen then s1
      else if s1.runs[r].claimedBy.Some? then Log(s1, r, RequestCancel)
      else Settle(Log(s1, r, RequestCancel), t, r)
  }

  /** The mark a claimed run costs its provider, unless it has cost one already. */
  function NoteOnce(s: State, r: RunId, c: Counter): (s': State)
    requires r in s.runs
    ensures s'.runs.Keys == s.runs.Keys && s'.threads.Keys == s.threads.Keys
  {
    var run := s.runs[r];
    if run.claimedBy.Some? && !run.notedAbnormal
    then NoteAbnormal(SetRun(s, r, run.(notedAbnormal := true)), r, run.claimedBy.value, c)
    else s
  }

  function OnTrusted(s: State, t: ThreadId, r: RunId, c: Command): (s': State)
    requires t in s.threads
    ensures s'.threads.Keys == s.threads.Keys
  {
    if !Live(s, t, r) then s
    else if c.RequestCancel? then OnCancelAsked(s, t, r)
    else if c.Fail? then Settle(Log(NoteOnce(s, r, Abandoned), r, c), t, r)
    else RecordAndMaybeSettle(s, t, r, c)
  }

  function OnUndelivered(s: State, t: ThreadId, r: RunId): (s': State)
    requires t in s.threads
    ensures s'.threads.Keys == s.threads.Keys
  {
    if !Live(s, t, r) then s else NoteOnce(s, r, Undeliverable)
  }

  function OnOfferLapsed(s: State, t: ThreadId, r: RunId, o: nat): (s': State)
    requires t in s.threads
    ensures s'.threads.Keys == s.threads.Keys
  {
    if !Live(s, t, r) || !s.runs[r].verdictOpen || s.runs[r].offerId != o then s
    else
      var s1 := CloseVerdict(s, r);
      var s2 := if s.runs[r].offeredTo.Some? then NoteAbnormal(s1, r, s.runs[r].offeredTo.value, Unanswered) else s1;
      EndUntaken(Release(s2, r), t, r,
                 if s.runs[r].cancelRequested then RequestCancel else Fail(ProviderDidNotAnswer, ""))
  }

  function OnMessage(s: State, t: ThreadId, m: Message): (s': State)
    requires t in s.threads
    ensures s'.threads.Keys == s.threads.Keys
  {
    match m
    case Queued(r) => OnQueued(s, t, r)
    case Answered(r, k, v) => OnAnswered(s, t, r, k, v)
    case Said(r, origin, c) => OnSaid(s, t, r, origin, c)
    case Trusted(r, c) => OnTrusted(s, t, r, c)
    case CancelAsked(r) => OnCancelAsked(s, t, r)
    case OfferLapsed(r, o) => OnOfferLapsed(s, t, r, o)
    case Undelivered(r) => OnUndelivered(s, t, r)
    case Poke => s
  }

  /** Taking the first message off an inbox; a statement about a live run is heard. */
  function Take(s: State, t: ThreadId): State
    requires t in s.threads && s.threads[t].inbox != []
  {
    var h := s.threads[t];
    var m := h.inbox[0];
    var s1 := s.(threads := s.threads[t := h.(inbox := h.inbox[1..])]);
    if (m.Answered? || m.Said?) && Live(s, t, m.run)
    then SetRun(s1, m.run, s.runs[m.run].(heard := s.runs[m.run].heard + [m]))
    else s1
  }

  /** The owner leaves when nothing is alive and nothing is waiting to be read. */
  function Retire(s: State, t: ThreadId): State {
    if t in s.threads && s.threads[t].live == {} && s.threads[t].inbox == []
    then s.(threads := s.threads - {t}) else s
  }

  function OwnerStep(s: State, t: ThreadId): State
    requires t in s.threads && s.threads[t].inbox != []
  {
    Retire(Advance(OnMessage(Take(s, t), t, s.threads[t].inbox[0]), t), t)
  }

  // ---- intake, clocks ------------------------------------------------------------

  function FreshRun(s: State, a: AgentRef, t: ThreadId, addressed: Option<RunId>, valid: bool): Run {
    Run(a, t, addressed, valid, s.now, |s.arrivals|, None, None, 0, false, false, false,
        None, false, false, [], [], [], 0)
  }

  /** Refused while the broker is not running: nothing would ever be dispatched. */
  function Enqueue(s: State, r: RunId, a: AgentRef, t: ThreadId, addressed: Option<RunId>, valid: bool): State {
    if !s.running then s
    else
      var h := if t in s.threads then s.threads[t] else ThreadHandler(a, [], [], {});
      s.(runs := s.runs[r := FreshRun(s, a, t, addressed, valid)],
         arrivals := s.arrivals + [r],
         threads := s.threads[t := Put(h, [Queued(r)])])
  }

  function Start(s: State): State {
    if s.running then s else s.(running := true, lastSweep := s.now, workToDo := true)
  }

  function Reference(s: State, run: Run): int {
    if run.agent in s.unservedSince && s.unservedSince[run.agent] > run.queuedAt
    then s.unservedSince[run.agent] else run.queuedAt
  }

  predicate Expires(s: State, run: Run) {
    && run.claimedBy.None? && run.offeredTo.None?
    && Serving(s, run.agent).None?
    && Reference(s, run) <= s.now - s.timeout
  }

  function ExpiredOf(s: State, ids: seq<RunId>): seq<RunId> {
    if ids == [] then []
    else (if ids[0] in s.runs && Expires(s, s.runs[ids[0]]) then [ids[0]] else []) + ExpiredOf(s, ids[1..])
  }

  /** One pass of the sweep: give up on what nobody serves, then have every owner look again. */
  function Sweep(s: State): State {
    PokeAll(PushFails(s, ExpiredOf(s, s.arrivals), NoProviderTookIt).(workToDo := false, lastSweep := s.now))
  }

  function ClockFires(s: State, r: RunId): State
    requires r in s.runs
  {
    Post(SetRun(s, r, s.runs[r].(clockDue := false)), r, OfferLapsed(r, s.runs[r].offerId))
  }

  // ---- steps and runs of the broker -----------------------------------------------

  datatype Step =
    | DoStart
    | DoEnqueue(run: RunId, agent: AgentRef, thread: ThreadId, addressed: Option<RunId>, valid: bool)
    | DoAnswer(run: RunId, key: Key, verdict: Verdict)
    | DoReport(run: RunId, event: Event, key: Key)
    | DoFinish(run: RunId, key: Key)
    | DoCancel(run: RunId)
    | DoFail(run: RunId, code: FailCode)
    | DoUndelivered(run: RunId)
    | DoRegister(mapping: seq<(AgentRef, Connection)>)
    | DoUnregister(agents: seq<AgentRef>)
    | DoOwner(thread: ThreadId)
    | DoClock(run: RunId)
    | DoHandOverFails(thread: ThreadId, run: RunId, offerId: nat)
    | DoSweep
    | DoTime(elapsed: nat)

  /** A run id just minted: nothing in the system has ever named it. */
  predicate Fresh(s: State, r: RunId) {
    && r !in s.runs && r !in s.done
    && forall t :: t in s.threads ==> forall m :: m in s.threads[t].inbox ==> m.Poke? || m.run != r
  }

  /** What the surroundings may do. Run ids are minted fresh; only a clock that is
      still due fires; the sweep's wait never exceeds the unserved timeout. */
  predicate Enabled(s: State, e: Step) {
    match e
    case DoEnqueue(r, _, _, _, _) => Fresh(s, r)
    case DoOwner(t) => t in s.threads && s.threads[t].inbox != []
    case DoClock(r) => r in s.runs && s.runs[r].clockDue
    case DoHandOverFails(t, r, o) =>
      if r in s.runs then s.runs[r].thread == t && o <= s.runs[r].offerId else r in s.done && s.done[r].thread == t
    case DoSweep => s.running
    case DoTime(d) => s.running ==> s.now + d <= s.lastSweep + s.timeout
    case _ => true
  }

  function Apply(s: State, e: Step): State
    requires Enabled(s, e)
  {
    match e
    case DoStart => Start(s)
    case DoEnqueue(r, a, t, addressed, valid) => Enqueue(s, r, a, t, addressed, valid)
    case DoAnswer(r, k, v) => AnswerOffer(s, r, k, v)
    case DoReport(r, ev, k) => ReportEvent(s, r, ev, k)
    case DoFinish(r, k) => ReportFinish(s, r, k)
    case DoCancel(r) => AskCancel(s, r)
    case DoFail(r, code) => Post(s, r, Trusted(r, Fail(code, "")))
    case DoUndelivered(r) => Post(s, r, Undelivered(r))
    case DoRegister(mapping) => Register(s, mapping)
    case DoUnregister(agents) => Unregister(s, agents)
    case DoOwner(t) => OwnerStep(s, t)
    case DoClock(r) => ClockFires(s, r)
    case DoHandOverFails(t, r, o) => PutAt(s, t, OfferLapsed(r, o))
    case DoSweep => Sweep(s)
    case DoTime(d) => s.(now := s.now + d)
  }

  /** A broker nobody has used: `timeout` is the unserved timeout. */
  function Init(now: int, timeout: int, tolerance: Option<int>): State {
    State(false, now, now, timeout, tolerance, map[], [], map[], map[], map[], [], map[], map[], false, [], [])
  }

  predicate Legal(s: State, steps: seq<Step>)
    decreases |steps|
  {
    steps == [] || (Enabled(s, steps[0]) && Legal(Apply(s, steps[0]), steps[1..]))
  }

  function Exec(s: State, steps: seq<Step>): State
    requires Legal(s, steps)
    decreases |steps|
  {
    if steps == [] then s else Exec(Apply(s, steps[0]), steps[1..])
  }
}
