/** What the provider's worker promises, over every sequence of steps that can happen to it. */
module RuntimeTheorems {
  import opened Vocabulary
  import opened RuntimeSpec
  import opened RuntimeInvariant

  lemma InitHolds(maxQueued: int, limit: Option<int>)
    ensures Inv(Init(maxQueued, limit))
  {
  }

  lemma StepKeeps(s: State, e: Step)
    requires Inv(s) && Enabled(s, e)
    ensures Inv(Apply(s, e))
  {
    hide Inv;
    match e
    case DoStart => CloseAllKeeps(s, s.inFlight, true);
    case DoClose(all) => CloseAllKeeps(s, if all then CancelAll(s.inFlight) else s.inFlight, false);
    case DoDeliver(job, hook) => DeliverKeeps(s, job, hook);
    case DoCancel(r) => CancelKeeps(s, r);
    case DoBegin(r) => BeginKeeps(s, r);
    case DoVanish(r) => VanishKeeps(s, r);
    case DoEmit(r, event) => EmitKeeps(s, r, event);
    case DoConclude(r) => ConcludeKeeps(s, r);
    case DoDone(r) => DoneKeeps(s, r);
  }

  lemma {:induction false} ExecKeeps(s: State, steps: seq<Step>)
    requires Inv(s) && Legal(s, steps)
    ensures Inv(Exec(s, steps))
    decreases |steps|
  {
    hide Inv, Apply, Enabled;
    if steps != [] {
      StepKeeps(s, steps[0]);
      ExecKeeps(Apply(s, steps[0]), steps[1..]);
    }
  }

  /** Some legal sequence of steps leads from an unused worker to `s`. */
  ghost predicate Reachable(s: State) {
    exists maxQueued, limit, steps ::
      Legal(Init(maxQueued, limit), steps) && s == Exec(Init(maxQueued, limit), steps)
  }

  lemma ReachableHolds(s: State)
    requires Reachable(s)
    ensures Inv(s)
  {
    hide Inv;
    var maxQueued, limit, steps :| Legal(Init(maxQueued, limit), steps) && s == Exec(Init(maxQueued, limit), steps);
    InitHolds(maxQueued, limit);
    ExecKeeps(Init(maxQueued, limit), steps);
  }

  // ---- lanes and slots -------------------------------------------------------------------

  /** A lane is running (its active run is a task on its turn, and it does not wait for
      a slot) or parked (no active run, work in its queue, its key parked exactly once). */
  lemma LaneIsNeverStranded(s: State, k: LaneKey)
    requires Reachable(s) && k in s.lanes
    ensures var lane := s.lanes[k];
            if lane.active.Some?
            then lane.active.value in s.inFlight && s.inFlight[lane.active.value].lane == Some(k)
                 && !lane.parked && multiset(s.parked)[k] == 0
            else lane.parked && lane.queue != [] && multiset(s.parked)[k] == 1
    ensures forall q :: q in s.parked ==> q in s.lanes && s.lanes[q].parked
  {
    ReachableHolds(s);
    OnceIn(s.parked, k);
  }

  lemma {:induction false} OnceIn(keys: seq<LaneKey>, k: LaneKey)
    requires Distinct(keys)
    ensures multiset(keys)[k] == if k in keys then 1 else 0
  {
    if keys != [] {
      assert keys == [keys[0]] + keys[1..];
      OnceIn(keys[1..], k);
    }
  }

  /** Nobody waits for a slot while one is free: every run that waits is behind its
      lane's active run, or its lane is parked and every slot is taken. */
  lemma SlotsAreNeverWasted(s: State, r: RunId)
    requires Reachable(s)
    ensures s.parked != [] ==> !SlotFree(s)
    ensures r in s.queued ==>
              && r in s.known && KeyOf(s.known[r]) in s.lanes
              && (s.lanes[KeyOf(s.known[r])].active.Some? || !SlotFree(s))
  {
    ReachableHolds(s);
  }

  /** Between any two steps as many lanes run as the declared limit allows, and no more. */
  lemma LanesStayWithinTheLimit(s: State)
    requires Reachable(s) && s.limit.Some?
    ensures |ActiveLanes(s.lanes)| <= if s.limit.value < 0 then 0 else s.limit.value
  {
    ReachableHolds(s);
  }

  // ---- every run is accounted for ------------------------------------------------------------

  /** `queued` is exactly what waits on a lane and was not cancelled there, and every run
      that was taken is in exactly one place: queued, made a task, or cancelled while it waited. */
  lemma EveryRunIsAccountedFor(s: State, r: RunId)
    requires Reachable(s)
    ensures r in s.queued <==> Waiting(s.lanes, s.known, r) && r !in s.dropped
    ensures r in s.dropped <==> Waiting(s.lanes, s.known, r) && r in s.gone
    ensures r in s.known <==> r in s.queued || r in s.launched || r in s.gone
    ensures !(r in s.queued && r in s.launched) && !(r in s.queued && r in s.gone) && !(r in s.launched && r in s.gone)
  {
    ReachableHolds(s);
    if r in s.queued { QueuedRun(s, r); }
  }

  /** A lane's turns start in the order they were taken, less those cancelled while
      they waited; what has not started is still waiting, in that order. */
  lemma TurnsStartInOrder(s: State, k: LaneKey)
    requires Reachable(s)
    ensures Minus(TurnsOf(s.accepted, k), s.gone) == TurnsOf(s.starts, k) + Minus(Ids(QueueOf(s.lanes, k)), s.dropped)
  {
    ReachableHolds(s);
    assert InOrder(TurnsOf(s.accepted, k), s.gone, TurnsOf(s.starts, k), QueueOf(s.lanes, k), s.dropped);
  }

  // ---- endings -----------------------------------------------------------------------------------

  /** Nothing is said about a run after its end marker, another marker included. */
  lemma NothingFollowsAnEnd(s: State, i: nat, j: nat)
    requires Reachable(s) && i < j < |s.output| && s.output[i].Ends?
    ensures s.output[j].run != s.output[i].run
  {
    ReachableHolds(s);
  }

  /** A run has its end marker exactly when it was cancelled while it waited, or its
      task is over and its stream had begun. */
  lemma EndMarkerExactlyWhenOver(s: State, r: RunId)
    requires Reachable(s)
    ensures Ends(r) in s.output <==>
              || r in s.gone
              || (r in s.launched && r !in s.vanished && (r in s.inFlight ==> s.inFlight[r].phase.Over?))
  {
    ReachableHolds(s);
    assert Ends(r) in s.output <==> Closed(s.inFlight, s.launched, s.gone, s.vanished, r);
  }

  lemma {:induction false} OneMoreStep(s: State, steps: seq<Step>, e: Step)
    requires Legal(s, steps) && Enabled(Exec(s, steps), e)
    ensures Legal(s, steps + [e]) && Exec(s, steps + [e]) == Apply(Exec(s, steps), e)
    decreases |steps|
  {
    hide Apply, Enabled;
    if steps == [] {
      assert [e][1..] == [] && Legal(Apply(s, e), []);
      assert steps + [e] == [e];
    } else {
      OneMoreStep(Apply(s, steps[0]), steps[1..], e);
      assert (steps + [e])[0] == steps[0] && (steps + [e])[1..] == steps[1..] + [e];
    }
  }

  lemma StepReaches(s: State, e: Step)
    requires Reachable(s) && Enabled(s, e)
    ensures Reachable(Apply(s, e))
  {
    hide Apply, Enabled;
    var maxQueued, limit, steps :| Legal(Init(maxQueued, limit), steps) && s == Exec(Init(maxQueued, limit), steps);
    OneMoreStep(Init(maxQueued, limit), steps, e);
    assert Legal(Init(maxQueued, limit), steps + [e]);
  }

  lemma InitIsReachable(maxQueued: int, limit: Option<int>)
    ensures Reachable(Init(maxQueued, limit))
  {
    var init := Init(maxQueued, limit);
    assert Legal(init, []) && Exec(init, []) == init;
  }

  /** A worker that has just started its first turn, and nothing else. */
  lemma FirstTurn(limit: Option<int>, job: Job) returns (s: State)
    requires limit.None? || limit.value > 0
    ensures Reachable(s) && s.running && s.limit == limit && s.maxQueued == 1
    ensures s.lanes == map[KeyOf(job) := Lane([], Some(job.id), false)]
    ensures s.inFlight == map[job.id := Task(Some(KeyOf(job)), Spawned, false)]
    ensures s.queued == {} && s.parked == [] && s.output == [] && s.known == map[job.id := job] &&
            s.launched == {job.id}
  {
    var init := Init(1, limit);
    hide Reachable;
    InitIsReachable(1, limit);
    StepReaches(init, DoStart);
    var s1 := init.(running := true);
    StepReaches(s1, DoDeliver(job, true));
    s := StartTurn(Append(s1, job), KeyOf(job));
    assert s.lanes[KeyOf(job)].queue == [];
  }

  /** A run cancelled before its task's first step is over without an end marker. */
  lemma ARunCanEndUnmarked() returns (s: State, r: RunId)
    ensures Reachable(s) && r in s.launched && r !in s.inFlight && Ends(r) !in s.output
  {
    hide Reachable;
    r := 7;
    var s2 := FirstTurn(None, Job(r, None, None, "agent"));
    var s3 := Cancel(s2, r);
    StepReaches(s2, DoCancel(r));
    var s4 := Vanish(s3, r);
    StepReaches(s3, DoVanish(r));
    s := Done(s4, r);
    StepReaches(s4, DoDone(r));
  }

  /** An interjection takes a slot of its own: executing runs can outnumber the limit though
      the lanes cannot. */
  lemma TasksCanOutnumberTheLimit() returns (s: State)
    ensures Reachable(s) && s.limit == Some(1) && |s.inFlight| == 2
  {
    hide Reachable;
    var s2 := FirstTurn(Some(1), Job(7, Some(1), None, "agent"));
    var b := Job(8, Some(1), Some(7), "agent");
    s := Deliver(s2, b, true).0;
    StepReaches(s2, DoDeliver(b, true));
    assert s.inFlight.Keys == {7, 8};
    assert |s.inFlight| == |s.inFlight.Keys|;
  }

  ghost predicate OverLimit(s: State) {
    s.limit.Some? && |s.inFlight| > s.limit.value
  }

  /** How many tasks a lane's advance leaves: as many as there were, or one more that had
      a free slot to go to. */
  ghost predicate FillsSlots(s: State, s': State) {
    && s'.limit == s.limit
    && (|s'.inFlight| == |s.inFlight|
        || (|s'.inFlight| > |s.inFlight| && (s.limit.None? || |s'.inFlight| <= s.limit.value)))
  }

  lemma TasksAdded(inFlight: map<RunId, Task>, r: RunId, task: Task)
    ensures |inFlight[r := task]| == |inFlight| + if r in inFlight then 0 else 1
  {
    assert inFlight[r := task].Keys == inFlight.Keys + {r};
  }

  lemma {:induction false} LaneNextFills(s: State, key: LaneKey)
    ensures FillsSlots(s, LaneNext(s, key))
    decreases if key in s.lanes then |s.lanes[key].queue| else 0
  {
    if key in s.lanes && s.lanes[key].queue != [] {
      var r := s.lanes[key].queue[0].id;
      if r in s.dropped {
        LaneNextFills(Discard(s, key), key);
      } else {
        TasksAdded(s.inFlight, r, Task(Some(key), Spawned, false));
      }
    }
  }

  lemma {:induction false} KickFills(s: State)
    ensures FillsSlots(s, KickParked(s))
    decreases |s.parked|
  {
    hide LaneNext;
    if s.parked != [] && SlotFree(s) {
      LaneNextFills(Unpark(s), s.parked[0]);
      KickFills(LaneNext(Unpark(s), s.parked[0]));
    }
  }

  lemma DoneFills(s: State, r: RunId)
    requires r in s.inFlight
    ensures OverLimit(Done(s, r)) ==> |Done(s, r).inFlight| < |s.inFlight|
  {
    hide LaneNext, KickParked;
    var lane, s1 := s.inFlight[r].lane, Leave(s, r);
    assert |s1.inFlight| == |s.inFlight| - 1 by { assert s1.inFlight.Keys == s.inFlight.Keys - {r}; }
    if lane.Some? && lane.value in s1.lanes && s1.lanes[lane.value].active == Some(r) {
      LaneNextFills(Vacate(s1, lane.value), lane.value);
      KickFills(LaneNext(Vacate(s1, lane.value), lane.value));
    } else {
      KickFills(s1);
    }
  }

  lemma UnknownIsNoTask(s: State, r: RunId)
    requires Inv(s) && r !in s.known
    ensures r !in s.inFlight
  {
    UnknownRun(s, r);
  }

  /** A step puts the executing runs past the declared limit exactly when it delivers, to a
      running worker with every slot taken and room in its queue, an interjection that its
      agent takes on the run it addresses. */
  lemma LimitIsPassedExactlyWhen(s: State, e: Step)
    requires Inv(s) && Enabled(s, e)
    ensures var s' := Apply(s, e);
            OverLimit(s') && |s'.inFlight| > |s.inFlight| <==>
              && s.limit.Some? && s.running && !SlotFree(s) && |s.queued| < s.maxQueued
              && e.DoDeliver? && e.hook && JoinsActive(s, e.job)
  {
    hide Inv, LaneNext, Done;
    match e
    case DoDeliver(job, hook) =>
      UnknownIsNoTask(s, job.id);
      TasksAdded(s.inFlight, job.id, Task(None, Spawned, false));
      LaneNextFills(Append(s, job), KeyOf(job));
    case DoDone(r) => DoneFills(s, r);
    case DoCancel(r) => if r in s.inFlight { TasksAdded(s.inFlight, r, s.inFlight[r].(cancelled := true)); }
    case DoBegin(r) => TasksAdded(s.inFlight, r, s.inFlight[r].(phase := Streaming));
    case DoVanish(r) => TasksAdded(s.inFlight, r, s.inFlight[r].(phase := Over));
    case DoConclude(r) => TasksAdded(s.inFlight, r, s.inFlight[r].(phase := Over));
    case DoClose(all) =>
      assert CancelAll(s.inFlight).Keys == s.inFlight.Keys;
      assert |CancelAll(s.inFlight)| == |CancelAll(s.inFlight).Keys|;
    case _ =>
  }

  // ---- cancelled while it waited --------------------------------------------------------------------

  lemma {:induction false} LaneNextGone(s: State, key: LaneKey)
    ensures LaneNext(s, key).gone == s.gone
    decreases if key in s.lanes then |s.lanes[key].queue| else 0
  {
    if key in s.lanes && s.lanes[key].queue != [] && s.lanes[key].queue[0].id in s.dropped {
      LaneNextGone(Discard(s, key), key);
    }
  }

  lemma {:induction false} KickGone(s: State)
    ensures KickParked(s).gone == s.gone
    decreases |s.parked|
  {
    if s.parked != [] && SlotFree(s) {
      LaneNextGone(Unpark(s), s.parked[0]);
      KickGone(LaneNext(Unpark(s), s.parked[0]));
    }
  }

  lemma StepGone(s: State, e: Step)
    requires Enabled(s, e)
    ensures s.gone <= Apply(s, e).gone
  {
    match e
    case DoDeliver(job, _) => LaneNextGone(Append(s, job), KeyOf(job));
    case DoDone(r) =>
      var lane, s1 := s.inFlight[r].lane, Leave(s, r);
      if lane.Some? && lane.value in s1.lanes && s1.lanes[lane.value].active == Some(r) {
        LaneNextGone(Vacate(s1, lane.value), lane.value);
        KickGone(LaneNext(Vacate(s1, lane.value), lane.value));
      } else {
        KickGone(s1);
      }
    case _ =>
  }

  lemma {:induction false} ExecGone(s: State, steps: seq<Step>)
    requires Legal(s, steps)
    ensures s.gone <= Exec(s, steps).gone
    decreases |steps|
  {
    if steps != [] {
      StepGone(s, steps[0]);
      ExecGone(Apply(s, steps[0]), steps[1..]);
    }
  }

  /** A run cancelled while it waits is ended at once and never executes, whatever happens next. */
  lemma CancelledWhileQueuedNeverRuns(s: State, r: RunId, steps: seq<Step>)
    requires Inv(s) && r in s.queued && Legal(Cancel(s, r), steps)
    ensures Ends(r) in Cancel(s, r).output
    ensures var s' := Exec(Cancel(s, r), steps);
            && r !in s'.launched && r !in s'.inFlight
            && (forall o :: o in s'.output && o.run == r ==> o == Ends(r))
            && (forall i :: 0 <= i < |s'.starts| ==> s'.starts[i].run != r)
  {
    QueuedRun(s, r);
    var s1 := Cancel(s, r);
    assert s1 == Drop(s, r);
    var s' := Exec(s1, steps);
    assert Inv(s') by {
      hide Inv;
      CancelKeeps(s, r);
      ExecKeeps(s1, steps);
    }
    ExecGone(s1, steps);
    assert r in s'.gone;
  }
}
