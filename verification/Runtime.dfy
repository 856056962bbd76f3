/** The provider's worker as it runs: one object whose lanes, tasks and queues every
    operation changes in place. Each method is proved to take the state exactly where
    the function of `RuntimeSpec` with the same meaning says. */
module Runtime {
  import opened Vocabulary
  import opened RuntimeSpec
  import opened RuntimeTheorems
  import RuntimeInvariant
  import RuntimeIntake

  class ProviderRuntime {
    const maxConcurrentRuns: Option<int>
    const maxQueuedRuns: int
    var running: bool
    var output: seq<Output>
    var lanes: map<LaneKey, Lane>
    var inFlight: map<RunId, Task>
    var queued: set<RunId>
    var parked: seq<LaneKey>
    var dropped: set<RunId>
    ghost var known: map<RunId, Job>
    ghost var accepted: seq<Turn>
    ghost var starts: seq<Turn>
    ghost var launched: set<RunId>
    ghost var gone: set<RunId>
    ghost var vanished: set<RunId>

    ghost function Now(): State
      reads this
    {
      State(running, maxQueuedRuns, maxConcurrentRuns, lanes, inFlight, queued, parked, dropped, output,
            known, accepted, starts, launched, gone, vanished)
    }

    constructor (maxQueued: int, maxConcurrent: Option<int>)
      ensures Now() == Init(maxQueued, maxConcurrent) && Reachable(Now())
    {
      maxConcurrentRuns, maxQueuedRuns, running, output := maxConcurrent, maxQueued, false, [];
      lanes, inFlight, queued, parked, dropped := map[], map[], {}, [], {};
      known, accepted, starts, launched, gone, vanished := map[], [], [], {}, {}, {};
      new;
      InitIsReachable(maxQueued, maxConcurrent);
    }

    predicate HasFreeSlot()
      reads this
      ensures HasFreeSlot() == SlotFree(Now())
    {
      maxConcurrentRuns.None? || |inFlight| < maxConcurrentRuns.value
    }

    predicate CanTakeMore()
      reads this
      ensures CanTakeMore() == RuntimeSpec.HasRoom(Now())
    {
      HasFreeSlot() || |queued| < maxQueuedRuns
    }

    // ---- intake and cancellation ---------------------------------------------------------

    /** The intake decision; for a run the worker does not know, the answer is its verdict,
        and it knows the run afterwards exactly when it took it. */
    method Deliver(job: Job, hook: bool) returns (answer: Intake)
      modifies this
      ensures RuntimeInvariant.Inv(old(Now())) && job.id !in old(known) ==>
                && answer == RuntimeIntake.Verdict(old(Now()), job, hook)
                && (if answer.Taken? then RuntimeIntake.WasTaken(old(Now()), Now(), job) else Now() == old(Now()))
      ensures (Now(), answer) == RuntimeSpec.Deliver(old(Now()), job, hook)
    {
      answer := Decide(job, hook);
      if RuntimeInvariant.Inv(old(Now())) && job.id !in old(known) {
        RuntimeIntake.IntakeIsTheVerdict(old(Now()), job, hook);
      }
    }

    method Decide(job: Job, hook: bool) returns (answer: Intake)
      modifies this
      ensures (Now(), answer) == RuntimeSpec.Deliver(old(Now()), job, hook)
    {
      if !running { return NoRoom; }
      var key := KeyOf(job);
      if job.addressed.Some? && key in lanes && lanes[key].active == job.addressed {
        if !hook { return Refusal("agent '" + job.agentName + "' takes no interjections"); }
        if !CanTakeMore() { return NoRoom; }
        known := known[job.id := job];
        StartRun(job, None);
        return Taken;
      }
      if !CanTakeMore() { return NoRoom; }
      var isNew := key !in lanes;
      if isNew { lanes := lanes[key := Lane([], None, false)]; }
      QueueOn(job);
      assert Now() == Append(old(Now()), job);
      if isNew { AdvanceLane(key); }
      return Taken;
    }

    method QueueOn(job: Job)
      requires KeyOf(job) in lanes
      modifies this
      ensures Now() == Append(old(Now()), job)
    {
      var key := KeyOf(job);
      lanes := lanes[key := lanes[key].(queue := lanes[key].queue + [job])];
      queued := queued + {job.id};
      known, accepted := known[job.id := job], accepted + [Turn(key, job.id)];
    }

    method Cancel(r: RunId)
      modifies this
      ensures Now() == RuntimeSpec.Cancel(old(Now()), r)
    {
      if r in inFlight {
        inFlight := inFlight[r := inFlight[r].(cancelled := true)];
        return;
      }
      if r in queued {
        queued := queued - {r};
        dropped := dropped + {r};
        output := output + [Ends(r)];
        gone := gone + {r};
      }
    }

    // ---- lanes --------------------------------------------------------------------------------

    method StartRun(job: Job, lane: Option<LaneKey>)
      modifies this
      ensures Now() == Launch(old(Now()), job, lane)
    {
      inFlight := inFlight[job.id := Task(lane, Spawned, false)];
      launched := launched + {job.id};
    }

    method DiscardFirst(key: LaneKey)
      requires key in lanes && lanes[key].queue != []
      modifies this
      ensures Now() == Discard(old(Now()), key)
    {
      var lane := lanes[key];
      var r := lane.queue[0].id;
      lanes := lanes[key := lane.(queue := lane.queue[1..])];
      queued := queued - {r};
      dropped := dropped - {r};
    }

    method StartFirst(key: LaneKey)
      requires key in lanes && lanes[key].queue != []
      modifies this
      ensures Now() == StartTurn(old(Now()), key)
    {
      var lane := lanes[key];
      var job := lane.queue[0];
      lanes := lanes[key := lane.(queue := lane.queue[1..], active := Some(job.id))];
      queued := queued - {job.id};
      starts := starts + [Turn(key, job.id)];
      StartRun(job, Some(key));
    }

    method ParkLane(key: LaneKey)
      requires key in lanes
      modifies this
      ensures Now() == Park(old(Now()), key)
    {
      if !lanes[key].parked {
        lanes := lanes[key := lanes[key].(parked := true)];
        parked := parked + [key];
      }
    }

    method AdvanceLane(key: LaneKey)
      modifies this
      ensures Now() == LaneNext(old(Now()), key)
    {
      hide StartTurn, Park;
      if key !in lanes { return; }
      while lanes[key].queue != []
        invariant key in lanes && LaneNext(Now(), key) == LaneNext(old(Now()), key)
        decreases |lanes[key].queue|
      {
        if lanes[key].queue[0].id in dropped {
          DiscardFirst(key);
          continue;
        }
        if !HasFreeSlot() {
          ParkLane(key);
          return;
        }
        StartFirst(key);
        return;
      }
      lanes := lanes - {key};
    }

    /** Terminates because a lane advanced with a slot free is never parked again. */
    method KickParkedLanes()
      modifies this
      ensures Now() == KickParked(old(Now()))
    {
      while parked != [] && HasFreeSlot()
        invariant KickParked(Now()) == KickParked(old(Now()))
        decreases |parked|
      {
        ghost var before := Now();
        var key := parked[0];
        parked := parked[1..];
        if key !in lanes {
          assert Now() == LaneNext(Unpark(before), key);
          continue;
        }
        lanes := lanes[key := lanes[key].(parked := false)];
        assert Now() == Unpark(before);
        AdvanceLane(key);
      }
    }

    // ---- one run's task -------------------------------------------------------------------------

    method TaskBegins(r: RunId)
      requires r in inFlight
      modifies this
      ensures Now() == Begin(old(Now()), r)
    {
      inFlight := inFlight[r := inFlight[r].(phase := Streaming)];
    }

    method TaskVanishes(r: RunId)
      requires r in inFlight
      modifies this
      ensures Now() == Vanish(old(Now()), r)
    {
      inFlight := inFlight[r := inFlight[r].(phase := Over)];
      vanished := vanished + {r};
    }

    method TaskSays(r: RunId, e: Event)
      modifies this
      ensures Now() == Emit(old(Now()), r, e)
    {
      output := output + [Says(r, e)];
    }

    method TaskConcludes(r: RunId)
      requires r in inFlight
      modifies this
      ensures Now() == Conclude(old(Now()), r)
    {
      output := output + [Ends(r)];
      inFlight := inFlight[r := inFlight[r].(phase := Over)];
    }

    method TaskDone(r: RunId)
      requires r in inFlight
      modifies this
      ensures Now() == Done(old(Now()), r)
    {
      var lane := inFlight[r].lane;
      inFlight := inFlight - {r};
      assert Now() == Leave(old(Now()), r);
      if lane.Some? && lane.value in lanes && lanes[lane.value].active == Some(r) {
        lanes := lanes[lane.value := lanes[lane.value].(active := None)];
        AdvanceLane(lane.value);
      }
      KickParkedLanes();
    }

    // ---- lifecycle ----------------------------------------------------------------------------------

    method Start()
      modifies this
      ensures Now() == old(Now()).(running := true)
    {
      running := true;
    }

    method Close(cancelInFlight: bool)
      modifies this
      ensures Now() == Apply(old(Now()), DoClose(cancelInFlight))
    {
      running := false;
      if cancelInFlight {
        ghost var all := inFlight;
        var todo := inFlight.Keys;
        while todo != {}
          invariant todo <= all.Keys && inFlight.Keys == all.Keys
          invariant forall r :: r in all ==> inFlight[r] == if r in todo then all[r] else all[r].(cancelled := true)
          invariant Now() == old(Now()).(running := false, inFlight := inFlight)
          decreases todo
        {
          var r :| r in todo;
          inFlight := inFlight[r := inFlight[r].(cancelled := true)];
          todo := todo - {r};
        }
        assert inFlight == CancelAll(all);
      }
    }

    method Perform(e: Step)
      requires Enabled(Now(), e)
      modifies this
      ensures Now() == Apply(old(Now()), e)
    {
      match e
      case DoStart => Start();
      case DoClose(cancelInFlight) => Close(cancelInFlight);
      case DoDeliver(job, hook) => var _ := Deliver(job, hook);
      case DoCancel(r) => Cancel(r);
      case DoBegin(r) => TaskBegins(r);
      case DoVanish(r) => TaskVanishes(r);
      case DoEmit(r, event) => TaskSays(r, event);
      case DoConclude(r) => TaskConcludes(r);
      case DoDone(r) => TaskDone(r);
    }

    /** A whole run of the worker: it ends where the step system says, so what is proved of
        reachable workers holds of the object, however it got there. */
    method PerformAll(steps: seq<Step>)
      requires Legal(Now(), steps)
      modifies this
      ensures Now() == Exec(old(Now()), steps)
      ensures Reachable(old(Now())) ==> Reachable(Now())
    {
      hide Apply, Enabled, Reachable;
      var i := 0;
      while i < |steps|
        invariant i <= |steps| && Legal(Now(), steps[i..])
        invariant Exec(Now(), steps[i..]) == Exec(old(Now()), steps)
        invariant Reachable(old(Now())) ==> Reachable(Now())
      {
        assert steps[i..][0] == steps[i] && steps[i..][1..] == steps[i + 1..];
        if Reachable(Now()) { StepReaches(Now(), steps[i]); }
        Perform(steps[i]);
        i := i + 1;
      }
    }
  }
}
