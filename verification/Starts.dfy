/** How often a job is started, over whole runs and restarts. The attempt count
    bounds it within one session of the daemon; across restarts the starts the
    stored records lack come on top, and module Restarts shows that there is no
    bound on those. */
module Starts {
  import opened Types
  import opened Collections
  import opened Planner
  import opened Materialization
  import opened EngineSpec
  import opened EngineInv
  import opened EngineLife
  import opened Failures
  import opened Daemon
  import opened DaemonFrame
  import opened Progress
  import Channels

  // The job an event starts, if any.
  ghost function StartedBy(s: Engine, e: Event): Option<JobId> {
    if e.SpawnJob? then Picked(s) else None
  }

  // Attempts are counted for the job started and no other; new jobs have none.
  ghost predicate AttemptsCount(jobs: Jobs, t: Jobs, started: Option<JobId>) {
    && jobs.Keys <= t.Keys
    && (forall j :: j in t ==>
          && t[j].maxAttempts == (if j in jobs then jobs[j].maxAttempts else MAX_ATTEMPTS)
          && t[j].attempt == (if j in jobs then jobs[j].attempt else 0) + (if started == Some(j) then 1 else 0))
  }

  lemma CompleteAttempts(s: Engine, c: Completion)
    ensures SameAttempts(s.jobs, Complete(s, c).jobs)
  {
  }

  lemma {:induction false} SweepAttempts(s: Engine, swept: seq<Completion>)
    ensures SameAttempts(s.jobs, Sweep(s, swept).jobs)
  {
    hide Complete;
    if swept != [] {
      SweepAttempts(s, swept[..|swept| - 1]);
      CompleteAttempts(Sweep(s, swept[..|swept| - 1]), swept[|swept| - 1]);
    }
  }

  lemma MaterializeAttempts(t: Engine, r: RunId, j: JobId, plan: Plan, ids: seq<JobId>)
    requires WellFormed(plan) && FreshIds(plan, ids, t.jobs)
    ensures AttemptsCount(t.jobs, MaterializePlan(t, r, j, plan, ids).jobs, None)
  {
    hide MaterializePlan, WellFormed, Extended;
    var u := MaterializePlan(t, r, j, plan, ids);
    MaterializeShape(t, r, j, plan, ids);
    forall x | x in u.jobs && x !in t.jobs
      ensures u.jobs[x].attempt == 0 && u.jobs[x].maxAttempts == MAX_ATTEMPTS
    {
      var i :| 0 <= i < |ids| && ids[i] == x;
      assert JobCopies(plan, ids, r, j, plan.jobs[i], u.jobs[ids[i]]);
    }
  }

  lemma AfterPlannerAttempts(t: Engine, r: RunId, j: JobId, outcome: Outcome)
    requires OutcomeOk(t, outcome)
    ensures AttemptsCount(t.jobs, AfterPlanner(t, r, j, outcome).jobs, None)
  {
    hide MaterializePlan, WellFormed;
    if outcome.PlanText? && WellFormed(outcome.plan) {
      MaterializeAttempts(t, r, j, outcome.plan, outcome.ids);
    }
  }

  lemma AfterReviewerAttempts(maxRevisions: nat, t: Engine, j: JobId, outcome: Outcome)
    requires OutcomeOk(t, outcome)
    ensures AttemptsCount(t.jobs, AfterReviewer(maxRevisions, t, j, outcome).jobs, None)
  {
    hide RevisedInstruction;
  }

  lemma NoneStarted(jobs: Jobs, t: Jobs)
    requires SameAttempts(jobs, t)
    ensures AttemptsCount(jobs, t, None)
  {
  }

  lemma CountAfter(jobs: Jobs, t: Jobs, u: Jobs)
    requires SameAttempts(jobs, t) && AttemptsCount(t, u, None)
    ensures AttemptsCount(jobs, u, None)
  {
  }

  lemma OnCompletedAttempts(maxRevisions: nat, s: Engine, c: Completion, outcome: Outcome)
    requires OutcomeOk(s, outcome)
    ensures AttemptsCount(s.jobs, OnCompleted(maxRevisions, s, c, outcome).jobs, None)
  {
    hide Complete, OutcomeOk, AfterPlanner, AfterReviewer;
    var t := Complete(s, c);
    CompleteAttempts(s, c);
    OutcomeStaysOk(s, t, outcome) by { assert t.jobs.Keys == s.jobs.Keys; }
    hide SameAttempts, AttemptsCount;
    if c.job in s.jobs {
      AfterPlannerAttempts(t, s.jobs[c.job].run, c.job, outcome);
      AfterReviewerAttempts(maxRevisions, t, c.job, outcome);
      CountAfter(s.jobs, t.jobs, AfterPlanner(t, s.jobs[c.job].run, c.job, outcome).jobs);
      CountAfter(s.jobs, t.jobs, AfterReviewer(maxRevisions, t, c.job, outcome).jobs);
    }
    NoneStarted(s.jobs, t.jobs);
  }

  lemma OnFailedAttempts(s: Engine, j: JobId, note: Note, cs: seq<ChannelId>)
    ensures AttemptsCount(s.jobs, OnFailed(s, j, note, cs).jobs, None)
  {
    hide FailAll;
    FailPeersShape(s, j, cs);
    FailAllQueue(s, Killed(s.channels, j, cs), Note.PeerFailed(j));
  }

  lemma SpawnAttempts(s: Engine, now: int)
    requires Inv(s)
    ensures AttemptsCount(s.jobs, Spawn(s, now).jobs, Picked(s))
  {
    hide Inv, Spawn, DepsDone;
    SpawnShape(s, now);
    if Picked(s).Some? { StartedIsUnblocked(s, now); }
  }

  lemma CancelAttempts(s: Engine, r: RunId, order: seq<JobId>)
    ensures AttemptsCount(s.jobs, CancelRun(s, r, order).jobs, None)
  {
    hide FailAll;
    FailAllQueue(s, order, CancelledByUser);
  }

  lemma StepAttempts(maxRevisions: nat, s: Engine, e: Event)
    requires Inv(s) && (e.JobCompleted? ==> OutcomeOk(s, e.outcome)) && (e.SubmitRun? ==> e.root !in s.jobs)
    requires !e.Restart?
    ensures AttemptsCount(s.jobs, Step(maxRevisions, s, e).jobs, StartedBy(s, e))
  {
    hide Inv, OnCompleted, OnFailed, Sweep, Spawn, CancelRun, Restarted, Picked;
    match e
    case SpawnJob(now) => SpawnAttempts(s, now);
    case JobCompleted(c, outcome) => OnCompletedAttempts(maxRevisions, s, c, outcome);
    case JobFailed(j, note, cs) => OnFailedAttempts(s, j, note, cs);
    case MessageFrom(c, sender, content, swept) => SweepAttempts(RouteMessage(s, c, sender, content).0, swept);
    case DoneFrom(c, sender, swept) => SweepAttempts(ChannelDone(s, c, sender).0, swept);
    case Cancel(r, order) => CancelAttempts(s, r, order);
    case _ =>
  }

  // How often job j has been started in the course of a history.
  ghost function StartCount(maxRevisions: nat, s: Engine, history: seq<Event>, j: JobId): nat {
    if history == [] then 0
    else
      var n := |history| - 1;
      StartCount(maxRevisions, s, history[..n], j)
      + if StartedBy(Execute(maxRevisions, s, history[..n]), history[n]) == Some(j) then 1 else 0
  }

  ghost function AttemptsOf(s: Engine, j: JobId): nat {
    if j in s.jobs then s.jobs[j].attempt else 0
  }

  // The starts of job j that a restart does not know of.
  ghost function LostBy(s: Engine, e: Event, j: JobId): nat {
    if e.Restart? && j in s.jobs && j in e.stored.jobs && e.stored.jobs[j].attempt < s.jobs[j].attempt
    then s.jobs[j].attempt - e.stored.jobs[j].attempt else 0
  }

  ghost function LostStarts(maxRevisions: nat, s: Engine, history: seq<Event>, j: JobId): nat {
    if history == [] then 0
    else
      var n := |history| - 1;
      LostStarts(maxRevisions, s, history[..n], j) + LostBy(Execute(maxRevisions, s, history[..n]), history[n], j)
  }

  ghost function Restarts(history: seq<Event>): nat {
    if history == [] then 0
    else Restarts(history[..|history| - 1]) + if history[|history| - 1].Restart? then 1 else 0
  }

  lemma RestartAttempts(s: Engine, stored: Records, queue: seq<JobId>, j: JobId)
    requires Behind(stored, s)
    ensures AttemptsOf(Restarted(stored, s.cap, queue), j) + LostBy(s, Restart(stored, queue), j) == AttemptsOf(s, j)
    ensures LostBy(s, Restart(stored, queue), j) <= 1
    ensures j in s.jobs ==> Restarted(stored, s.cap, queue).jobs[j].maxAttempts == s.jobs[j].maxAttempts
  {
    if j in s.jobs {
      RecoveredIs(stored.jobs, j);
    }
  }

  // One event: attempts + starts lost = attempts before + starts.
  lemma StepCounts(maxRevisions: nat, s: Engine, e: Event, j: JobId)
    requires Inv(s) && Enabled(s, e)
    ensures var t := Step(maxRevisions, s, e);
      && AttemptsOf(t, j) + LostBy(s, e, j) == AttemptsOf(s, j) + (if StartedBy(s, e) == Some(j) then 1 else 0)
      && LostBy(s, e, j) <= (if e.Restart? then 1 else 0)
      && (j in s.jobs ==> j in t.jobs && t.jobs[j].maxAttempts == s.jobs[j].maxAttempts)
      && (j in t.jobs && j !in s.jobs ==> t.jobs[j].maxAttempts == MAX_ATTEMPTS)
  {
    hide Inv, Behind, Restarted, AttemptsOf, LostBy;
    if e.Restart? {
      RestartAttempts(s, e.stored, e.queue, j);
      RestartKeys(s, e.stored, e.queue);
    } else {
      PickedIsKnown(s, e);
      StepAttempts(maxRevisions, s, e);
      CountOf(s, Step(maxRevisions, s, e), e, j);
    }
  }

  lemma RestartKeys(s: Engine, stored: Records, queue: seq<JobId>)
    requires Behind(stored, s)
    ensures Restarted(stored, s.cap, queue).jobs.Keys == s.jobs.Keys
  {
  }

  lemma CountOf(s: Engine, t: Engine, e: Event, j: JobId)
    requires !e.Restart? && AttemptsCount(s.jobs, t.jobs, StartedBy(s, e))
    requires StartedBy(s, e).Some? ==> StartedBy(s, e).value in s.jobs
    ensures AttemptsOf(t, j) + LostBy(s, e, j) == AttemptsOf(s, j) + (if StartedBy(s, e) == Some(j) then 1 else 0)
    ensures LostBy(s, e, j) == 0
  {
  }

  lemma PickedIsKnown(s: Engine, e: Event)
    requires Inv(s)
    ensures StartedBy(s, e).Some? ==> StartedBy(s, e).value in s.jobs
  {
    if StartedBy(s, e).Some? {
      assert s.queue[0] in s.queue;
    }
  }

  // Starts = attempts gained + starts lost, over any history from any state.
  lemma {:induction false} StartsAreAttempts(maxRevisions: nat, s: Engine, history: seq<Event>, j: JobId)
    requires Inv(s) && Legal(maxRevisions, s, history)
    ensures var t := Execute(maxRevisions, s, history);
      && AttemptsOf(s, j) + StartCount(maxRevisions, s, history, j)
         == AttemptsOf(t, j) + LostStarts(maxRevisions, s, history, j)
      && LostStarts(maxRevisions, s, history, j) <= Restarts(history)
      && (j in s.jobs ==> j in t.jobs && t.jobs[j].maxAttempts == s.jobs[j].maxAttempts)
      && (j in t.jobs && j !in s.jobs ==> t.jobs[j].maxAttempts == MAX_ATTEMPTS)
  {
    hide Inv, Step, Enabled, AttemptsOf, LostBy, StartedBy;
    if history != [] {
      var n := |history| - 1;
      var t := Execute(maxRevisions, s, history[..n]);
      StartsAreAttempts(maxRevisions, s, history[..n], j);
      ExecuteKeepsInv(maxRevisions, s, history[..n]);
      StepCounts(maxRevisions, t, history[n], j);
    }
  }

  lemma AttemptsBounded(s: Engine, j: JobId)
    requires Inv(s)
    ensures j in s.jobs ==> AttemptsOf(s, j) <= s.jobs[j].maxAttempts
  {
    if j in s.jobs {
      assert AttemptOk(s.jobs[j]);
    }
  }

  // The retry bound within a session, which may begin with any recovered state:
  // a job is started at most as often as it had attempts left.
  lemma RetryBound(maxRevisions: nat, s: Engine, history: seq<Event>, j: JobId)
    requires Inv(s) && Legal(maxRevisions, s, history)
    requires forall e :: e in history ==> !e.Restart?
    ensures StartCount(maxRevisions, s, history, j) <=
      if j in s.jobs then s.jobs[j].maxAttempts - s.jobs[j].attempt else MAX_ATTEMPTS
  {
    hide Inv, Legal, Execute, StartCount, LostStarts;
    StartsAreAttempts(maxRevisions, s, history, j);
    NoRestarts(history);
    ExecuteKeepsInv(maxRevisions, s, history);
    AttemptsBounded(Execute(maxRevisions, s, history), j);
  }

  // In figures: from the first start of the daemon, no more than three times.
  lemma ThreeStarts(maxRevisions: nat, cap: nat, history: seq<Event>, j: JobId)
    requires Legal(maxRevisions, Init(cap), history) && forall e :: e in history ==> !e.Restart?
    ensures StartCount(maxRevisions, Init(cap), history, j) <= 3
  {
    hide Inv, Legal, Execute, StartCount;
    InitInv(cap);
    RetryBound(maxRevisions, Init(cap), history, j);
  }

  lemma {:induction false} NoRestarts(history: seq<Event>)
    requires forall e :: e in history ==> !e.Restart?
    ensures Restarts(history) == 0
  {
    if history != [] {
      NoRestarts(history[..|history| - 1]);
    }
  }

  // And across restarts: a job is started at most max_attempts times and once
  // more for each start lost, of which no restart loses more than one.
  lemma RetryBoundAcrossRestarts(maxRevisions: nat, cap: nat, history: seq<Event>, j: JobId)
    requires Legal(maxRevisions, Init(cap), history)
    ensures StartCount(maxRevisions, Init(cap), history, j) <= MAX_ATTEMPTS + LostStarts(maxRevisions, Init(cap), history, j)
    ensures LostStarts(maxRevisions, Init(cap), history, j) <= Restarts(history)
  {
    hide Inv, Legal, Execute, StartCount, LostStarts, Restarts;
    InitInv(cap);
    StartsAreAttempts(maxRevisions, Init(cap), history, j);
    ExecuteKeepsInv(maxRevisions, Init(cap), history);
    AttemptsBounded(Execute(maxRevisions, Init(cap), history), j);
  }

  // ---- Starts are lost ----

  // Nothing is running, no conversation is open, everything Ready is queued.
  ghost predicate Resting(s: Engine) {
    && Inv(s) && s.active == map[]
    && (forall c :: c in s.channels ==> !s.channels[c].active)
    && (forall j :: j in s.jobs && s.jobs[j].status.Ready? ==> j in s.queue)
  }

  // A start that was not saved is forgotten: restarting from what was saved
  // before it gives the engine as it was before it, attempts included.
  lemma StartForgotten(s: Engine, now: int)
    requires Resting(s) && Picked(s).Some?
    ensures Enabled(Spawn(s, now), Restart(RecordsOf(s), s.queue))
    ensures Restarted(RecordsOf(s), s.cap, s.queue) == s
  {
    hide RefsOk, DepsExact, RootsOk, DepsDone, AttemptsOk, Behind, Spawn;
    NothingToRecover(s);
    assert s.beats.Keys == {};
    assert s.beats == map[];
    assert RestartedChannels(s.channels) == s.channels;
    RestingIsBehind(s, now);
  }

  lemma NothingToRecover(s: Engine)
    requires Resting(s)
    ensures RestartedJobs(s.jobs) == s.jobs
    ensures Enumerates(s.queue, ReadyJobs(s.jobs))
  {
    hide RefsOk, DepsExact, RootsOk, DepsDone, AttemptsOk;
    forall j | j in s.jobs ensures !s.jobs[j].status.Running? {
      assert j !in s.active;
    }
  }

  lemma RestingIsBehind(s: Engine, now: int)
    requires Resting(s) && Picked(s).Some?
    ensures Behind(RecordsOf(s), Spawn(s, now))
  {
    hide RefsOk, DepsExact, RootsOk, DepsDone, AttemptsOk, Spawn;
    SpawnShape(s, now);
    StartedIsUnblocked(s, now);
    var j := Picked(s).value;
    assert StartLost(s.jobs[j], Spawn(s, now).jobs[j]);
  }
}
