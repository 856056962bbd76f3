/** What the worker answers when a run is delivered to it, what it puts out, and when it
    is open: each step's visible effect, in full. */
module RuntimeIntake {
  import opened Vocabulary
  import opened RuntimeSpec
  import opened RuntimeInvariant
  import opened RuntimeTheorems

  // ---- the intake answer -----------------------------------------------------------------

  function LaneKeyOf(job: Job): LaneKey {
    if job.thread.Some? then job.thread.value else job.id
  }

  /** The run asks to join the one its lane is executing. */
  predicate AsksToJoin(s: State, job: Job) {
    job.addressed.Some? && LaneKeyOf(job) in s.lanes && s.lanes[LaneKeyOf(job)].active == job.addressed
  }

  /** There is a slot, or room to wait for one. */
  predicate CanTake(s: State) {
    s.limit.None? || |s.inFlight| < s.limit.value || |s.queued| < s.maxQueued
  }

  /** The worker's verdict, on everything it goes by. */
  function Verdict(s: State, job: Job, hook: bool): Intake {
    if !s.running then NoRoom
    else if AsksToJoin(s, job) && !hook then Refusal("agent '" + job.agentName + "' takes no interjections")
    else if !CanTake(s) then NoRoom
    else Taken
  }

  lemma {:induction false} LaneNextKnows(s: State, key: LaneKey)
    ensures var s' := LaneNext(s, key);
            && s'.known == s.known && s'.accepted == s.accepted && s'.output == s.output && s'.queued <= s.queued
            && s'.maxQueued == s.maxQueued && s'.running == s.running
    decreases if key in s.lanes then |s.lanes[key].queue| else 0
  {
    if key in s.lanes && s.lanes[key].queue != [] && s.lanes[key].queue[0].id in s.dropped {
      LaneNextKnows(Discard(s, key), key);
    }
  }

  lemma {:induction false} KickKnows(s: State)
    ensures var s' := KickParked(s);
            && s'.known == s.known && s'.accepted == s.accepted && s'.output == s.output && s'.queued <= s.queued
            && s'.maxQueued == s.maxQueued && s'.running == s.running
    decreases |s.parked|
  {
    hide LaneNext;
    if s.parked != [] && SlotFree(s) {
      LaneNextKnows(Unpark(s), s.parked[0]);
      KickKnows(LaneNext(Unpark(s), s.parked[0]));
    }
  }

  /** A run that is taken: beside the run it joins it is executing at once, on nobody's turn;
      otherwise it is the last turn taken on its lane, and waits there or has started. */
  ghost predicate WasTaken(s: State, s': State, job: Job) {
    && s'.known == s.known[job.id := job] && s'.output == s.output && s'.running == s.running
    && if AsksToJoin(s, job) then
         && s' == s.(known := s'.known, inFlight := s.inFlight[job.id := Task(None, Spawned, false)],
                     launched := s.launched + {job.id})
       else
         && s'.accepted == s.accepted + [Turn(LaneKeyOf(job), job.id)]
         && (job.id in s'.queued || s'.starts == s.starts + [Turn(LaneKeyOf(job), job.id)])
         && (LaneKeyOf(job) in s.lanes ==> s'.queued == s.queued + {job.id} && s'.starts == s.starts)
         && s'.queued <= s.queued + {job.id}
  }

  /** The answer is the verdict; a run is taken exactly when the answer says so, and then
      as above; any other answer leaves the worker as it was. */
  lemma IntakeIsTheVerdict(s: State, job: Job, hook: bool)
    requires Inv(s) && job.id !in s.known
    ensures var (s', answer) := Deliver(s, job, hook);
            && answer == Verdict(s, job, hook) && s' == Apply(s, DoDeliver(job, hook))
            && (answer.Taken? <==> job.id in s'.known)
            && (if answer.Taken? then WasTaken(s, s', job) else s' == s)
  {
    assert KeyOf(job) == LaneKeyOf(job) && (JoinsActive(s, job) <==> AsksToJoin(s, job));
    assert HasRoom(s) <==> CanTake(s);
    if s.running && !AsksToJoin(s, job) && CanTake(s) && LaneKeyOf(job) !in s.lanes { NewLaneTakes(s, job); }
    hide Inv, LaneNext;
  }

  lemma NewLaneTakes(s: State, job: Job)
    requires Inv(s) && job.id !in s.known && KeyOf(job) !in s.lanes
    ensures var s' := LaneNext(Append(s, job), KeyOf(job));
            && s'.known == s.known[job.id := job] && s'.output == s.output && s'.running == s.running
            && s'.accepted == s.accepted + [Turn(KeyOf(job), job.id)]
            && (job.id in s'.queued || s'.starts == s.starts + [Turn(KeyOf(job), job.id)])
            && s'.queued <= s.queued + {job.id}
  {
    UnknownRun(s, job.id);
    hide Inv;
    var s1 := Append(s, job);
    LaneNextKnows(s1, KeyOf(job));
    assert s1.lanes[KeyOf(job)].queue == [job];
  }

  lemma DeliverGrows(s: State, job: Job, hook: bool)
    requires Inv(s) && job.id !in s.known
    ensures var s' := Deliver(s, job, hook).0;
            |s'.queued| <= |s.queued| + 1 && (|s'.queued| > |s.queued| ==> SlotFree(s) || |s.queued| < s.maxQueued)
  {
    IntakeIsTheVerdict(s, job, hook);
    hide Inv, Deliver;
    var s' := Deliver(s, job, hook).0;
    assert s'.queued <= s.queued + {job.id};
    SmallerSet(s'.queued, s.queued + {job.id});
    assert |s.queued + {job.id}| <= |s.queued| + 1;
  }

  /** Whatever the step: the runs waiting grow past the declared queue only by a delivery
      that found a slot free. */
  lemma QueueGrowsWithinBounds(s: State, e: Step)
    requires Inv(s) && Enabled(s, e)
    requires |Apply(s, e).queued| > |s.queued| && |Apply(s, e).queued| > s.maxQueued
    ensures e.DoDeliver? && SlotFree(s)
  {
    hide Inv, Deliver, Done;
    match e
    case DoDeliver(job, hook) => DeliverGrows(s, job, hook);
    case DoDone(r) =>
      DoneKnows(s, r);
      SmallerSet(Done(s, r).queued, s.queued);
    case DoCancel(r) => SmallerSet(s.queued - {r}, s.queued);
    case _ =>
  }

  lemma {:induction false} SmallerSet(a: set<RunId>, b: set<RunId>)
    requires a <= b
    ensures |a| <= |b|
    decreases |a|
  {
    if a != {} {
      var x :| x in a;
      SmallerSet(a - {x}, b - {x});
    }
  }

  lemma DoneKnows(s: State, r: RunId)
    requires r in s.inFlight
    ensures var s' := Done(s, r);
            && s'.known == s.known && s'.output == s.output && s'.queued <= s.queued && s'.running == s.running
  {
    hide LaneNext, KickParked;
    var lane, s1 := s.inFlight[r].lane, Leave(s, r);
    if lane.Some? && lane.value in s1.lanes && s1.lanes[lane.value].active == Some(r) {
      LaneNextKnows(Vacate(s1, lane.value), lane.value);
      KickKnows(LaneNext(Vacate(s1, lane.value), lane.value));
    } else {
      KickKnows(s1);
    }
  }

  // ---- what is put out ------------------------------------------------------------------------

  /** What a step puts out: the event an agent said, unchanged; the end of a stream; the end
      of a run cancelled while it waited; and nothing else. */
  function PutOut(s: State, e: Step): seq<Output> {
    match e
    case DoEmit(r, event) => [Says(r, event)]
    case DoConclude(r) => [Ends(r)]
    case DoCancel(r) => if r !in s.inFlight && r in s.queued then [Ends(r)] else []
    case _ => []
  }

  lemma OutputIsWhatWasSaid(s: State, e: Step)
    requires Enabled(s, e)
    ensures Apply(s, e).output == s.output + PutOut(s, e)
  {
    hide LaneNext, Done;
    match e
    case DoDeliver(job, _) => LaneNextKnows(Append(s, job), KeyOf(job));
    case DoDone(r) => DoneKnows(s, r);
    case _ =>
  }

  function AllPutOut(s: State, steps: seq<Step>): seq<Output>
    requires Legal(s, steps)
    decreases |steps|
  {
    if steps == [] then [] else PutOut(s, steps[0]) + AllPutOut(Apply(s, steps[0]), steps[1..])
  }

  /** Over any run: the output is everything that was put out, in order. */
  lemma {:induction false} OutputOverARun(s: State, steps: seq<Step>)
    requires Legal(s, steps)
    ensures Exec(s, steps).output == s.output + AllPutOut(s, steps)
    decreases |steps|
  {
    hide Apply, Enabled, PutOut;
    if steps == [] {
      assert s.output + [] == s.output;
    } else {
      OutputIsWhatWasSaid(s, steps[0]);
      OutputOverARun(Apply(s, steps[0]), steps[1..]);
      var rest := AllPutOut(Apply(s, steps[0]), steps[1..]);
      assert (s.output + PutOut(s, steps[0])) + rest == s.output + (PutOut(s, steps[0]) + rest);
    }
  }

  // ---- opening and closing ----------------------------------------------------------------------

  /** Only starting opens the worker and only closing shuts it; closing cancels every task
      if asked to, and touches nothing else. */
  lemma OpenExactlyWhen(s: State, e: Step)
    requires Enabled(s, e)
    ensures Apply(s, e).running <==> e.DoStart? || (s.running && !e.DoClose?)
    ensures e.DoStart? ==> Apply(s, e) == s.(running := true)
    ensures e.DoClose? ==>
              var s' := Apply(s, e);
              && s' == s.(running := false, inFlight := s'.inFlight) && s'.inFlight.Keys == s.inFlight.Keys
              && forall r :: r in s.inFlight ==>
                   s'.inFlight[r] == if e.cancelInFlight then s.inFlight[r].(cancelled := true) else s.inFlight[r]
  {
    hide LaneNext, Done;
    match e
    case DoDeliver(job, _) => LaneNextKnows(Append(s, job), KeyOf(job));
    case DoDone(r) => DoneKnows(s, r);
    case _ =>
  }
}
