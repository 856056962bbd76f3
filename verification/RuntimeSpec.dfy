/** The provider's worker: accepted runs queue on their thread's lane, one lane runs
    one of them at a time, and lanes without an execution slot wait parked. What each
    operation does, as functions from state to state; `Runtime.ProviderRuntime`
    performs them in place. */
module RuntimeSpec {
  import opened Vocabulary

  type LaneKey = nat

  /** A delivered run. A run without a thread makes a lane of its own. */
  datatype Job = Job(id: RunId, thread: Option<ThreadId>, addressed: Option<RunId>, agentName: string)

  datatype Lane = Lane(queue: seq<Job>, active: Option<RunId>, parked: bool)

  /** A task that was spawned, that has taken its first step, that is over. */
  datatype Phase = Spawned | Streaming | Over

  /** `lane` is the lane whose turn the run takes; an interjection takes nobody's. */
  datatype Task = Task(lane: Option<LaneKey>, phase: Phase, cancelled: bool)

  datatype Output = Says(run: RunId, event: Event) | Ends(run: RunId)

  datatype Intake = Taken | NoRoom | Refusal(reason: string)

  datatype Turn = Turn(lane: LaneKey, run: RunId)

  /** The worker. From `known` on the fields are history: the runs it took, the turns
      taken and the turns started (in order), the runs that became tasks, the runs
      cancelled while they waited, and those whose execution was over before their stream began. */
  datatype State = State(
    running: bool, maxQueued: int, limit: Option<int>,
    lanes: map<LaneKey, Lane>, inFlight: map<RunId, Task>, queued: set<RunId>,
    parked: seq<LaneKey>, dropped: set<RunId>, output: seq<Output>,
    known: map<RunId, Job>, accepted: seq<Turn>, starts: seq<Turn>,
    launched: set<RunId>, gone: set<RunId>, vanished: set<RunId>)

  function KeyOf(job: Job): LaneKey {
    if job.thread.Some? then job.thread.value else job.id
  }

  predicate SlotFree(s: State) {
    s.limit.None? || |s.inFlight| < s.limit.value
  }

  predicate HasRoom(s: State) {
    SlotFree(s) || |s.queued| < s.maxQueued
  }

  // ---- lanes ----------------------------------------------------------------------

  function Launch(s: State, job: Job, lane: Option<LaneKey>): State {
    s.(inFlight := s.inFlight[job.id := Task(lane, Spawned, false)], launched := s.launched + {job.id})
  }

  /** Drops the cancelled run at the front of a lane. */
  function Discard(s: State, key: LaneKey): State
    requires key in s.lanes && s.lanes[key].queue != []
  {
    var lane := s.lanes[key];
    var r := lane.queue[0].id;
    s.(lanes := s.lanes[key := lane.(queue := lane.queue[1..])], queued := s.queued - {r}, dropped := s.dropped - {r})
  }

  function Park(s: State, key: LaneKey): State
    requires key in s.lanes
  {
    if s.lanes[key].parked then s
    else s.(lanes := s.lanes[key := s.lanes[key].(parked := true)], parked := s.parked + [key])
  }

  /** Starts the run at the front of a lane. */
  function StartTurn(s: State, key: LaneKey): State
    requires key in s.lanes && s.lanes[key].queue != []
  {
    var lane := s.lanes[key];
    var job := lane.queue[0];
    Launch(s.(lanes := s.lanes[key := lane.(queue := lane.queue[1..], active := Some(job.id))],
              queued := s.queued - {job.id}, starts := s.starts + [Turn(key, job.id)]),
           job, Some(key))
  }

  /** Starts a lane's next run, parks the lane when no slot is free, or retires it when
      nothing waits. With a slot free it never parks. */
  function LaneNext(s: State, key: LaneKey): (s': State)
    ensures SlotFree(s) ==> s'.parked == s.parked
    decreases if key in s.lanes then |s.lanes[key].queue| else 0
  {
    if key !in s.lanes then s
    else if s.lanes[key].queue == [] then s.(lanes := s.lanes - {key})
    else if s.lanes[key].queue[0].id in s.dropped then LaneNext(Discard(s, key), key)
    else if !SlotFree(s) then Park(s, key)
    else StartTurn(s, key)
  }

  /** The oldest parked lane, about to be advanced. */
  function Unpark(s: State): State
    requires s.parked != []
  {
    var key := s.parked[0];
    s.(parked := s.parked[1..],
       lanes := if key in s.lanes then s.lanes[key := s.lanes[key].(parked := false)] else s.lanes)
  }

  /** Hands free slots to parked lanes, oldest first; it ends because a lane advanced
      with a slot free is never parked again. */
  function KickParked(s: State): State
    decreases |s.parked|
  {
    if s.parked == [] || !SlotFree(s) then s
    else KickParked(LaneNext(Unpark(s), s.parked[0]))
  }

  // ---- intake and cancellation -------------------------------------------------------

  predicate JoinsActive(s: State, job: Job) {
    job.addressed.Some? && KeyOf(job) in s.lanes && s.lanes[KeyOf(job)].active == job.addressed
  }

  function Enroll(s: State, job: Job): State {
    s.(known := s.known[job.id := job])
  }

  /** Puts a run at the back of its lane, opening the lane if there is none. */
  function Append(s: State, job: Job): State {
    var key := KeyOf(job);
    var lane := if key in s.lanes then s.lanes[key] else Lane([], None, false);
    Enroll(s, job).(lanes := s.lanes[key := lane.(queue := lane.queue + [job])],
                    queued := s.queued + {job.id}, accepted := s.accepted + [Turn(key, job.id)])
  }

  /** `hook` says whether the run's agent has an interjection hook. */
  function Deliver(s: State, job: Job, hook: bool): (State, Intake) {
    if !s.running then (s, NoRoom)
    else if JoinsActive(s, job) then
      if !hook then (s, Refusal("agent '" + job.agentName + "' takes no interjections"))
      else if !HasRoom(s) then (s, NoRoom)
      else (Launch(Enroll(s, job), job, None), Taken)
    else if !HasRoom(s) then (s, NoRoom)
    else if KeyOf(job) in s.lanes then (Append(s, job), Taken)
    else (LaneNext(Append(s, job), KeyOf(job)), Taken)
  }

  function SetTask(s: State, r: RunId, task: Task): State {
    s.(inFlight := s.inFlight[r := task])
  }

  function Drop(s: State, r: RunId): State {
    s.(queued := s.queued - {r}, dropped := s.dropped + {r}, output := s.output + [Ends(r)], gone := s.gone + {r})
  }

  function Cancel(s: State, r: RunId): State {
    if r in s.inFlight then SetTask(s, r, s.inFlight[r].(cancelled := true))
    else if r in s.queued then Drop(s, r)
    else s
  }

  // ---- one run's task -------------------------------------------------------------------

  function Begin(s: State, r: RunId): State
    requires r in s.inFlight
  {
    SetTask(s, r, s.inFlight[r].(phase := Streaming))
  }

  /** The execution is over without its stream ever having begun: no end marker. */
  function Vanish(s: State, r: RunId): State
    requires r in s.inFlight
  {
    SetTask(s, r, s.inFlight[r].(phase := Over)).(vanished := s.vanished + {r})
  }

  function Emit(s: State, r: RunId, e: Event): State {
    s.(output := s.output + [Says(r, e)])
  }

  /** The stream is over, cancelled or broken: the marker goes out either way. */
  function Conclude(s: State, r: RunId): State
    requires r in s.inFlight
  {
    SetTask(s, r, s.inFlight[r].(phase := Over)).(output := s.output + [Ends(r)])
  }

  function Leave(s: State, r: RunId): State {
    s.(inFlight := s.inFlight - {r})
  }

  /** The lane whose turn `r` had is nobody's. */
  function Vacate(s: State, key: LaneKey): State
    requires key in s.lanes
  {
    s.(lanes := s.lanes[key := s.lanes[key].(active := None)])
  }

  /** A finished task gives its slot back: first to its own lane, then to parked ones. */
  function Done(s: State, r: RunId): State
    requires r in s.inFlight
  {
    var lane := s.inFlight[r].lane;
    var s1 := Leave(s, r);
    KickParked(
      if lane.Some? && lane.value in s1.lanes && s1.lanes[lane.value].active == Some(r)
      then LaneNext(Vacate(s1, lane.value), lane.value)
      else s1)
  }

  function CancelAll(inFlight: map<RunId, Task>): map<RunId, Task> {
    map r | r in inFlight :: inFlight[r].(cancelled := true)
  }

  // ---- steps -------------------------------------------------------------------------------

  datatype Step =
    | DoStart
    | DoClose(cancelInFlight: bool)
    | DoDeliver(job: Job, hook: bool)
    | DoCancel(run: RunId)
    | DoBegin(run: RunId)
    | DoVanish(run: RunId)
    | DoEmit(run: RunId, event: Event)
    | DoConclude(run: RunId)
    | DoDone(run: RunId)

  predicate InPhase(s: State, r: RunId, phase: Phase) {
    r in s.inFlight && s.inFlight[r].phase == phase
  }

  /** A run that was taken is never delivered again. A task cancelled before its first
      step never takes one; an agent's own stream may also fail to open. */
  predicate Enabled(s: State, e: Step) {
    match e
    case DoStart => true
    case DoClose(_) => true
    case DoDeliver(job, _) => job.id !in s.known
    case DoCancel(_) => true
    case DoBegin(r) => InPhase(s, r, Spawned) && !s.inFlight[r].cancelled
    case DoVanish(r) => InPhase(s, r, Spawned) && (s.inFlight[r].cancelled || s.inFlight[r].lane.Some?)
    case DoEmit(r, _) => InPhase(s, r, Streaming)
    case DoConclude(r) => InPhase(s, r, Streaming)
    case DoDone(r) => InPhase(s, r, Over)
  }

  function Apply(s: State, e: Step): State
    requires Enabled(s, e)
  {
    match e
    case DoStart => s.(running := true)
    case DoClose(cancelInFlight) =>
      s.(running := false, inFlight := if cancelInFlight then CancelAll(s.inFlight) else s.inFlight)
    case DoDeliver(job, hook) => Deliver(s, job, hook).0
    case DoCancel(r) => Cancel(s, r)
    case DoBegin(r) => Begin(s, r)
    case DoVanish(r) => Vanish(s, r)
    case DoEmit(r, event) => Emit(s, r, event)
    case DoConclude(r) => Conclude(s, r)
    case DoDone(r) => Done(s, r)
  }

  function Init(maxQueued: int, limit: Option<int>): State {
    State(false, maxQueued, limit, map[], map[], {}, [], {}, [], map[], [], [], {}, {}, {})
  }

  predicate Legal(s: State, steps: seq<Step>)
    decreases |steps|
  {
    steps == [] || (Enabled(s, steps[0]) && Legal(Apply(s, steps[0]), steps[1..]))
  }

  function Exec(s: State, steps: seq<Step>): State
    requires Legal(s, steps)
    decreases |steps|
  {
    if steps == [] then s else Exec(Apply(s, steps[0]), steps[1..])
  }
}
