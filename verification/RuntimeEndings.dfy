/** Which runs end without an end marker: exactly those whose stream never began. */
module RuntimeEndings {
  import opened Vocabulary
  import opened RuntimeSpec
  import opened RuntimeInvariant
  import opened RuntimeTheorems

  // ---- one run's task, step by step ------------------------------------------------------

  /** Tasks are only added, unbegun, for runs that were none before. */
  ghost predicate OnlyNewTasks(s: State, s': State) {
    && s.launched <= s'.launched && s'.vanished == s.vanished
    && (forall q :: q in s.launched ==> (q in s'.inFlight <==> q in s.inFlight))
    && (forall q :: q in s.launched && q in s.inFlight && q in s'.inFlight ==> s'.inFlight[q] == s.inFlight[q])
    && (forall q :: q !in s.launched && q in s'.inFlight ==> s'.inFlight[q].phase.Spawned? && !s'.inFlight[q].cancelled)
    && (forall q :: q !in s'.launched ==> q !in s'.inFlight)
  }

  lemma OnlyNewOn(a: State, b: State, c: State)
    requires OnlyNewTasks(a, b) && OnlyNewTasks(b, c)
    ensures OnlyNewTasks(a, c)
  {
  }

  lemma NoNewTasks(s: State, s': State)
    requires s'.launched == s.launched && s'.inFlight == s.inFlight && s'.vanished == s.vanished
    requires s.inFlight.Keys <= s.launched
    ensures OnlyNewTasks(s, s')
  {
  }

  lemma TasksAreLaunched(s: State, x: Option<LaneKey>)
    requires Core(s, x)
    ensures s.inFlight.Keys <= s.launched
  {
  }

  lemma OneNewTask(s: State, s': State, r: RunId, lane: Option<LaneKey>)
    requires s.inFlight.Keys <= s.launched && r !in s.launched
    requires s'.launched == s.launched + {r} && s'.vanished == s.vanished
    requires s'.inFlight == s.inFlight[r := Task(lane, Spawned, false)]
    ensures OnlyNewTasks(s, s')
  {
  }

  lemma UnlaunchedHead(s: State, key: LaneKey)
    requires Core(s, Some(key)) && key in s.lanes && s.lanes[key].queue != [] && s.lanes[key].queue[0].id !in s.dropped
    ensures s.lanes[key].queue[0].id !in s.launched
  {
    QueueHead(s, key);
  }

  lemma {:induction false} LaneNextTasks(s: State, key: LaneKey)
    requires Core(s, Some(key)) && key in s.lanes
    ensures OnlyNewTasks(s, LaneNext(s, key))
    decreases |s.lanes[key].queue|
  {
    hide Core, OnlyNewTasks;
    TasksAreLaunched(s, Some(key));
    if s.lanes[key].queue == [] {
      NoNewTasks(s, LaneNext(s, key));
    } else if s.lanes[key].queue[0].id in s.dropped {
      DiscardKeeps(s, key);
      LaneNextTasks(Discard(s, key), key);
      NoNewTasks(s, Discard(s, key));
      OnlyNewOn(s, Discard(s, key), LaneNext(s, key));
    } else if !SlotFree(s) {
      NoNewTasks(s, LaneNext(s, key));
    } else {
      UnlaunchedHead(s, key);
      OneNewTask(s, LaneNext(s, key), s.lanes[key].queue[0].id, Some(key));
    }
  }

  lemma {:induction false} KickTasks(s: State)
    requires Core(s, None)
    ensures OnlyNewTasks(s, KickParked(s))
    decreases |s.parked|
  {
    hide Core, OnlyNewTasks, LaneNext;
    TasksAreLaunched(s, None);
    NoNewTasks(s, s);
    if s.parked != [] && SlotFree(s) {
      var s1 := LaneNext(Unpark(s), s.parked[0]);
      UnparkKeeps(s);
      NoNewTasks(s, Unpark(s));
      LaneNextTasks(Unpark(s), s.parked[0]);
      LaneNextKeeps(Unpark(s), s.parked[0]);
      OnlyNewOn(s, Unpark(s), s1);
      KickTasks(s1);
      OnlyNewOn(s, s1, KickParked(s1));
    }
  }

  lemma DoneTasks(s: State, r: RunId)
    requires Inv(s) && InPhase(s, r, Over)
    ensures OnlyNewTasks(Leave(s, r), Done(s, r))
  {
    hide Core, OnlyNewTasks, LaneNext, KickParked;
    var lane, s1 := s.inFlight[r].lane, Leave(s, r);
    TasksAreLaunched(s, None);
    LeaveKeeps(s, r);
    if lane.Some? {
      var s2 := Vacate(s1, lane.value);
      NoNewTasks(s1, s2);
      LaneNextTasks(s2, lane.value);
      LaneNextKeeps(s2, lane.value);
      OnlyNewOn(s1, s2, LaneNext(s2, lane.value));
      KickTasks(LaneNext(s2, lane.value));
      OnlyNewOn(s1, LaneNext(s2, lane.value), Done(s, r));
    } else {
      KickTasks(s1);
    }
  }

  lemma DeliverTasks(s: State, job: Job, hook: bool)
    requires Inv(s) && job.id !in s.known
    ensures OnlyNewTasks(s, Deliver(s, job, hook).0)
  {
    hide Core, OnlyNewTasks, LaneNext;
    TasksAreLaunched(s, None);
    NoNewTasks(s, s);
    UnlaunchedUnknown(s, job.id);
    if s.running && JoinsActive(s, job) {
      OneNewTask(s, Launch(Enroll(s, job), job, None), job.id, None);
    } else if s.running && HasRoom(s) {
      AppendKeeps(s, job);
      NoNewTasks(s, Append(s, job));
      if KeyOf(job) !in s.lanes {
        LaneNextTasks(Append(s, job), KeyOf(job));
        OnlyNewOn(s, Append(s, job), LaneNext(Append(s, job), KeyOf(job)));
      }
    }
  }

  lemma UnlaunchedUnknown(s: State, r: RunId)
    requires Core(s, None) && r !in s.known
    ensures r !in s.launched
  {
    UnknownRun(s, r);
  }

  /** What one step does to a run whose task is there, or was. */
  ghost predicate TaskMoves(s: State, s': State, e: Step, q: RunId) {
    && q in s'.launched
    && (q in s'.vanished <==> q in s.vanished || e == DoVanish(q))
    && (q in s.inFlight ==> q in s'.inFlight || e == DoDone(q))
    && (q in s'.inFlight ==>
          && q in s.inFlight
          && (s'.inFlight[q].cancelled <==> s.inFlight[q].cancelled || e == DoCancel(q) || e == DoClose(true))
          && (s'.inFlight[q].phase == s.inFlight[q].phase || e == DoBegin(q) || e == DoVanish(q) || e == DoConclude(q))
          && (e == DoBegin(q) ==> s'.inFlight[q].phase == Streaming)
          && (e == DoVanish(q) || e == DoConclude(q) ==> s'.inFlight[q].phase == Over))
  }

  /** A task that was not there before has yet to begin, and nobody has cancelled it. */
  ghost predicate FreshTask(s': State, q: RunId) {
    q !in s'.vanished && (q in s'.inFlight ==> s'.inFlight[q].phase.Spawned? && !s'.inFlight[q].cancelled)
  }

  lemma NewTaskMoves(s: State, s': State, job: Job, hook: bool, q: RunId)
    requires OnlyNewTasks(s, s') && s.vanished <= s.launched
    ensures q in s.launched ==> TaskMoves(s, s', DoDeliver(job, hook), q)
    ensures q !in s.launched ==> FreshTask(s', q)
  {
  }

  lemma DoneTaskMoves(s: State, s': State, r: RunId, q: RunId)
    requires OnlyNewTasks(Leave(s, r), s') && s.vanished <= s.launched
    ensures q in s.launched ==> TaskMoves(s, s', DoDone(r), q)
    ensures q !in s.launched ==> FreshTask(s', q)
  {
  }

  lemma OwnTaskMoves(s: State, e: Step, q: RunId)
    requires Enabled(s, e) && !e.DoDeliver? && !e.DoDone? && s.vanished <= s.launched && s.inFlight.Keys <= s.launched
    ensures q in s.launched ==> TaskMoves(s, Apply(s, e), e, q)
    ensures q !in s.launched ==> FreshTask(Apply(s, e), q)
  {
  }

  lemma StepTasks(s: State, e: Step, q: RunId)
    requires Inv(s) && Enabled(s, e)
    ensures q in s.launched ==> TaskMoves(s, Apply(s, e), e, q)
    ensures q !in s.launched ==> FreshTask(Apply(s, e), q)
  {
    assert s.vanished <= s.launched && s.inFlight.Keys <= s.launched;
    hide Core, Done, Deliver, TaskMoves, FreshTask, OnlyNewTasks;
    match e
    case DoDeliver(job, hook) => DeliverTasks(s, job, hook); NewTaskMoves(s, Apply(s, e), job, hook, q);
    case DoDone(r) => DoneTasks(s, r); DoneTaskMoves(s, Apply(s, e), r, q);
    case _ => OwnTaskMoves(s, e, q);
  }

  // ---- which runs end without a marker ----------------------------------------------------

  /** Cancelled before its first step: its task will never take one. */
  predicate Doomed(s: State, r: RunId) {
    r in s.launched && (r in s.vanished || (InPhase(s, r, Spawned) && s.inFlight[r].cancelled))
  }

  /** Its task has taken its first step. */
  predicate HasBegun(s: State, r: RunId) {
    r in s.launched && r !in s.vanished && (r in s.inFlight ==> !s.inFlight[r].phase.Spawned?)
  }

  lemma {:induction false} DoomedForGood(s: State, r: RunId, steps: seq<Step>)
    requires Inv(s) && Doomed(s, r) && Legal(s, steps)
    ensures Inv(Exec(s, steps)) && Doomed(Exec(s, steps), r)
    decreases |steps|
  {
    hide Inv, Apply;
    if steps != [] {
      StepTasks(s, steps[0], r);
      StepKeeps(s, steps[0]);
      DoomedForGood(Apply(s, steps[0]), r, steps[1..]);
    }
  }

  lemma {:induction false} BegunForGood(s: State, r: RunId, steps: seq<Step>)
    requires Inv(s) && HasBegun(s, r) && Legal(s, steps)
    ensures Inv(Exec(s, steps)) && HasBegun(Exec(s, steps), r)
    decreases |steps|
  {
    hide Inv, Apply;
    if steps != [] {
      StepTasks(s, steps[0], r);
      StepKeeps(s, steps[0]);
      BegunForGood(Apply(s, steps[0]), r, steps[1..]);
    }
  }

  lemma MarkedIsClosed(s: State, r: RunId)
    requires Inv(s)
    ensures Ends(r) in s.output <==> Closed(s.inFlight, s.launched, s.gone, s.vanished, r)
    ensures r in s.launched ==> r !in s.gone
    ensures InPhase(s, r, Streaming) ==> r in s.launched && r !in s.vanished
    ensures InPhase(s, r, Spawned) ==> r in s.launched && r !in s.vanished
  {
  }

  /** A run cancelled before its task's first step never gets an end marker, whatever
      happens next. */
  lemma CancelledUnbegunIsNeverMarked(s: State, r: RunId, steps: seq<Step>)
    requires Inv(s) && InPhase(s, r, Spawned) && Legal(Cancel(s, r), steps)
    ensures Ends(r) !in Exec(Cancel(s, r), steps).output
  {
    var s1 := Cancel(s, r);
    MarkedIsClosed(s, r);
    CancelKeeps(s, r);
    hide Inv;
    DoomedForGood(s1, r, steps);
    MarkedIsClosed(Exec(s1, steps), r);
  }

  /** A run whose stream has begun, cancelled or not, has its marker by the time its task
      is gone. */
  lemma BegunIsAlwaysMarked(s: State, r: RunId, steps: seq<Step>)
    requires Inv(s) && InPhase(s, r, Streaming) && Legal(s, steps)
    ensures r in Exec(s, steps).inFlight || Ends(r) in Exec(s, steps).output
  {
    hide Inv;
    MarkedIsClosed(s, r);
    BegunForGood(s, r, steps);
    MarkedIsClosed(Exec(s, steps), r);
  }

  /** After `i` of `steps`, `r` has a task that has yet to take its first step. */
  ghost predicate UnbegunAt(s: State, steps: seq<Step>, i: nat, r: RunId) {
    i < |steps| && Legal(s, steps[..i]) && InPhase(Exec(s, steps[..i]), r, Spawned)
  }

  ghost predicate CancelledUnbegun(s: State, steps: seq<Step>, r: RunId) {
    exists i :: 0 <= i < |steps| && (steps[i] == DoCancel(r) || steps[i] == DoClose(true)) && UnbegunAt(s, steps, i, r)
  }

  /** It takes a lane's turn, and its stream was never opened. */
  ghost predicate NeverOpened(s: State, steps: seq<Step>, r: RunId) {
    exists i :: 0 <= i < |steps| && steps[i] == DoVanish(r) && UnbegunAt(s, steps, i, r)
                && Exec(s, steps[..i]).inFlight[r].lane.Some?
  }

  lemma {:induction false} SplitLast(s: State, steps: seq<Step>)
    requires Legal(s, steps) && steps != []
    ensures var n := |steps| - 1;
            && Legal(s, steps[..n]) && Enabled(Exec(s, steps[..n]), steps[n])
            && Exec(s, steps) == Apply(Exec(s, steps[..n]), steps[n])
    decreases |steps|
  {
    hide Apply, Enabled;
    var n := |steps| - 1;
    if n > 0 {
      SplitLast(Apply(s, steps[0]), steps[1..]);
      assert steps[..n][1..] == steps[1..][..n - 1];
    } else {
      assert steps[1..] == [] && steps[..n] == [];
    }
  }

  lemma LaterStill(s: State, steps: seq<Step>, r: RunId)
    requires steps != []
    ensures CancelledUnbegun(s, steps[..|steps| - 1], r) ==> CancelledUnbegun(s, steps, r)
    ensures NeverOpened(s, steps[..|steps| - 1], r) ==> NeverOpened(s, steps, r)
  {
    hide Legal, Exec;
    var before := steps[..|steps| - 1];
    assert forall i :: 0 <= i < |before| ==> before[..i] == steps[..i] && before[i] == steps[i];
    if CancelledUnbegun(s, before, r) {
      var i :| 0 <= i < |before| && (before[i] == DoCancel(r) || before[i] == DoClose(true)) &&
          UnbegunAt(s, before, i, r);
      assert UnbegunAt(s, steps, i, r);
    }
    if NeverOpened(s, before, r) {
      var i :| 0 <= i < |before| && before[i] == DoVanish(r) && UnbegunAt(s, before, i, r)
               && Exec(s, before[..i]).inFlight[r].lane.Some?;
      assert UnbegunAt(s, steps, i, r);
    }
  }

  /** A cancelled task that has yet to begin was cancelled before it began; and a run that
      ends unmarked was cancelled before it began, or took a lane's turn and never opened. */
  lemma {:induction false} UnmarkedWasUnbegun(s: State, steps: seq<Step>, r: RunId)
    requires Inv(s) && r !in s.launched && Legal(s, steps)
    ensures Inv(Exec(s, steps))
    ensures InPhase(Exec(s, steps), r, Spawned) && Exec(s, steps).inFlight[r].cancelled ==>
            CancelledUnbegun(s, steps, r)
    ensures r in Exec(s, steps).vanished ==> CancelledUnbegun(s, steps, r) || NeverOpened(s, steps, r)
    decreases |steps|
  {
    hide Core, Apply, NoWaste;
    MarkedIsClosed(s, r);
    if steps == [] {
      UnlaunchedIsNothing(s, r);
    } else {
      var n := |steps| - 1;
      SplitLast(s, steps);
      var s0 := Exec(s, steps[..n]);
      UnmarkedWasUnbegun(s, steps[..n], r);
      StepTasks(s0, steps[n], r);
      StepKeeps(s0, steps[n]);
      LaterStill(s, steps, r);
      if InPhase(s0, r, Spawned) { assert UnbegunAt(s, steps, n, r); }
    }
  }

  lemma UnlaunchedIsNothing(s: State, r: RunId)
    requires Inv(s) && r !in s.launched
    ensures r !in s.inFlight && r !in s.vanished
  {
  }

  lemma {:induction false} ExecSplit(s: State, steps: seq<Step>, i: nat)
    requires Legal(s, steps) && i <= |steps|
    ensures Legal(s, steps[..i]) && Legal(Exec(s, steps[..i]), steps[i..])
    ensures Exec(s, steps) == Exec(Exec(s, steps[..i]), steps[i..])
    decreases |steps|
  {
    hide Apply, Enabled;
    if i == 0 {
      assert steps[..0] == [] && steps[0..] == steps;
    } else {
      ExecSplit(Apply(s, steps[0]), steps[1..], i - 1);
      assert steps[..i][1..] == steps[1..][..i - 1] && steps[i..] == steps[1..][i - 1..];
    }
  }

  /** A task that has yet to begin, after a step that cancels it or ends it there. */
  lemma UnbegunIsDoomed(s: State, e: Step, r: RunId)
    requires Inv(s) && Enabled(s, e) && InPhase(s, r, Spawned)
    requires e == DoCancel(r) || e == DoClose(true) || e == DoVanish(r)
    ensures Inv(Apply(s, e)) && Doomed(Apply(s, e), r)
  {
    StepKeeps(s, e);
    MarkedIsClosed(s, r);
    hide Inv;
  }

  lemma DoomedFrom(s: State, steps: seq<Step>, i: nat, r: RunId)
    requires Inv(s) && Legal(s, steps) && UnbegunAt(s, steps, i, r)
    requires steps[i] == DoCancel(r) || steps[i] == DoClose(true) || steps[i] == DoVanish(r)
    ensures Ends(r) !in Exec(s, steps).output
  {
    hide Inv, Apply;
    ExecSplit(s, steps, i);
    ExecKeeps(s, steps[..i]);
    var s0 := Exec(s, steps[..i]);
    assert steps[i..][0] == steps[i];
    UnbegunIsDoomed(s0, steps[i], r);
    DoomedForGood(Apply(s0, steps[i]), r, steps[i..][1..]);
    MarkedIsClosed(Exec(s, steps), r);
  }

  /** Over any run of a worker: a run whose task is gone lacks its end marker exactly when
      it was cancelled before its first step, or took a lane's turn and never opened its stream. */
  lemma MarkerIsMissingExactlyWhen(maxQueued: int, limit: Option<int>, steps: seq<Step>, r: RunId)
    requires Legal(Init(maxQueued, limit), steps)
    requires var s := Exec(Init(maxQueued, limit), steps); r in s.launched && r !in s.inFlight
    ensures var init := Init(maxQueued, limit);
            Ends(r) !in Exec(init, steps).output <==> CancelledUnbegun(init, steps, r) || NeverOpened(init, steps, r)
  {
    var init := Init(maxQueued, limit);
    InitHolds(maxQueued, limit);
    hide Inv;
    UnmarkedWasUnbegun(init, steps, r);
    MarkedIsClosed(Exec(init, steps), r);
    if CancelledUnbegun(init, steps, r) {
      var i :| 0 <= i < |steps| && (steps[i] == DoCancel(r) || steps[i] == DoClose(true)) &&
          UnbegunAt(init, steps, i, r);
      DoomedFrom(init, steps, i, r);
    }
    if NeverOpened(init, steps, r) {
      var i :| 0 <= i < |steps| && steps[i] == DoVanish(r) && UnbegunAt(init, steps, i, r)
               && Exec(init, steps[..i]).inFlight[r].lane.Some?;
      DoomedFrom(init, steps, i, r);
    }
  }
}
