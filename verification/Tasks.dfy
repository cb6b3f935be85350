/** Every run is planned from its task. */
module Tasks {
  import opened Types
  import opened Collections
  import opened EngineSpec
  import opened EngineInv
  import opened EngineLife
  import opened Failures
  import opened Daemon
  import opened DaemonFrame
  import opened ChannelLife
  import opened RunFrame
  import opened Recovery

  // The run's first job is a planner that is given the run's task as it was
  // submitted, starts from nothing and waits for nothing.
  ghost predicate Tasked(s: Engine, r: RunId) {
    && r in s.runs && s.runs[r].root in s.jobs
    && var b := s.jobs[s.runs[r].root];
       && b.run == r && b.role.Planner? && b.instruction == s.runs[r].task && b.profile == "planner"
       && b.inputs == [] && b.deps == [] && b.parent == None && b.round == 0
  }

  ghost predicate AllTasked(s: Engine) {
    forall r :: r in s.runs ==> Tasked(s, r)
  }

  // Only a submission brings a run.
  lemma SameRuns(maxRevisions: nat, s: Engine, e: Event)
    requires Inv(s) && SeatsOk(s) && Enabled(s, e) && !e.SubmitRun?
    ensures Step(maxRevisions, s, e).runs.Keys == s.runs.Keys
  {
    hide QueueOk, CapOk, DepsExact, RootsOk, AttemptsOk, Step, Enabled, Behind;
    StepEvolves(maxRevisions, s, e);
    if e.Restart? {
      RestartRuns(maxRevisions, s, e.stored, e.queue);
    } else if IsStart(e) {
      StartRuns(maxRevisions, s, e);
    } else if RunOf(s, e).None? {
      NoRunNoStep(maxRevisions, s, e);
    } else if RunOf(s, e).value in s.runs {
      StepTouchesOne(maxRevisions, s, e);
    } else {
      UnknownRun(maxRevisions, s, e);
    }
  }

  lemma RestartRuns(maxRevisions: nat, s: Engine, stored: Records, queue: seq<JobId>)
    requires Enabled(s, Restart(stored, queue))
    ensures Step(maxRevisions, s, Restart(stored, queue)).runs.Keys == s.runs.Keys
  {
  }

  lemma StartRuns(maxRevisions: nat, s: Engine, e: Event)
    requires e.SpawnJob? || e.Heartbeat? || e.ActivateReady?
    ensures Step(maxRevisions, s, e).runs.Keys == s.runs.Keys
  {
    if e.SpawnJob? { SpawnShape(s, e.now); }
  }

  lemma UnknownRun(maxRevisions: nat, s: Engine, e: Event)
    requires RefsOk(s.runs, s.jobs) && SeatsOk(s) && !e.SubmitRun?
    requires RunOf(s, e).Some? && RunOf(s, e).value !in s.runs
    ensures Step(maxRevisions, s, e) == s
  {
    hide OnCompleted, OnFailed, RouteMessage, ChannelDone, Sweep, FailAll;
    assert forall c :: c in s.channels ==> s.channels[c].run in s.runs by { SeatedRuns(s); }
  }

  lemma SeatedRuns(s: Engine)
    requires SeatsOk(s)
    ensures forall c :: c in s.channels ==> s.channels[c].run in s.runs
  {
    forall c | c in s.channels ensures s.channels[c].run in s.runs {
      assert SeatOk(s.runs, s.jobs, s.channels[c]);
    }
  }

  lemma StaysTasked(s: Engine, t: Engine, r: RunId)
    requires Evolves(s, t) && Tasked(s, r)
    ensures Tasked(t, r)
  {
    assert JobEvolves(s.jobs[s.runs[r].root], t.jobs[s.runs[r].root]);
  }

  lemma StepKeepsTasks(maxRevisions: nat, s: Engine, e: Event)
    requires Inv(s) && SeatsOk(s) && AllTasked(s) && Enabled(s, e)
    ensures AllTasked(Step(maxRevisions, s, e))
  {
    hide Inv, SeatsOk, Tasked, Enabled, Evolves;
    var t := Step(maxRevisions, s, e);
    StepEvolves(maxRevisions, s, e);
    forall r | r in t.runs ensures Tasked(t, r) {
      if r in s.runs {
        StaysTasked(s, t, r);
      } else if e.SubmitRun? {
        NewlyTasked(s, e.run, e.root, e.task);
      } else {
        SameRuns(maxRevisions, s, e);
      }
    }
  }

  lemma NewlyTasked(s: Engine, r: RunId, root: JobId, task: string)
    ensures Tasked(Submit(s, r, root, task), r)
  {
  }

  // The plan of a run is made from its task, whatever else has happened.
  lemma {:induction false} TasksArePlanned(maxRevisions: nat, cap: nat, history: seq<Event>)
    requires Legal(maxRevisions, Init(cap), history)
    ensures Inv(Execute(maxRevisions, Init(cap), history)) && SeatsOk(Execute(maxRevisions, Init(cap), history))
    ensures AllTasked(Execute(maxRevisions, Init(cap), history))
  {
    hide Inv, SeatsOk, AllTasked, Enabled, Step;
    if history == [] {
      InitInv(cap);
      NothingTasked(cap);
    } else {
      var n := |history| - 1;
      var t := Execute(maxRevisions, Init(cap), history[..n]);
      TasksArePlanned(maxRevisions, cap, history[..n]);
      StepKeepsInv(maxRevisions, t, history[n]);
      StepKeepsSeats(maxRevisions, t, history[n]);
      StepKeepsTasks(maxRevisions, t, history[n]);
    }
  }

  lemma NothingTasked(cap: nat)
    ensures SeatsOk(Init(cap)) && AllTasked(Init(cap))
  {
  }
}
