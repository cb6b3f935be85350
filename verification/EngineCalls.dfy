/** The concurrency cap holds whatever is called with whatever identifiers:
    unknown ones, repeated ones, jobs that hold no slot, plans that were never
    validated, restarts from any records. Nothing of the invariant of EngineInv is needed for it. */
module EngineCalls {
  import opened Types
  import opened Collections
  import opened Materialization
  import opened EngineSpec

  datatype Call =
    | SubmitRun(run: RunId, root: JobId, task: string)
    | NextJob
    | MarkRunning(job: JobId, now: int)
    | RecordHeartbeat(job: JobId, now: int)
    | MarkCompleted(job: JobId, outputs: seq<ArtifactId>, promoted: seq<JobId>)
    | MarkFailed(job: JobId, note: Note)
    | HandleReview(job: JobId, decision: Decision, maxRevisions: nat, coder: JobId, reviewer: JobId)
    | Materialize(run: RunId, job: JobId, plan: Plan, ids: seq<JobId>)
    | ActivateReady
    | RouteMessage(channel: ChannelId, sender: JobId, content: string)
    | ChannelDone(channel: ChannelId, sender: JobId)
    | PeerFailed(channel: ChannelId, job: JobId)
    | CancelRun(run: RunId, order: seq<JobId>)
    | Restart(stored: Records, queue: seq<JobId>)

  ghost function Apply(s: Engine, c: Call): Engine {
    match c
    case SubmitRun(r, root, task) => Submit(s, r, root, task)
    case NextJob => EngineSpec.NextJob(s).0
    case MarkRunning(j, now) => EngineSpec.MarkRunning(s, j, now)
    case RecordHeartbeat(j, now) => EngineSpec.RecordHeartbeat(s, j, now)
    case MarkCompleted(j, outputs, promoted) => EngineSpec.MarkCompleted(s, j, outputs, promoted)
    case MarkFailed(j, note) => EngineSpec.MarkFailed(s, j, note)
    case HandleReview(j, decision, max, coder, reviewer) => EngineSpec.HandleReview(s, j, decision, max, coder, reviewer)
    case Materialize(r, parent, plan, ids) =>
      if |ids| == |plan.jobs| then MaterializePlan(s, r, parent, plan, ids) else s
    case ActivateReady => ActivateChannels(s)
    case RouteMessage(c, sender, content) => EngineSpec.RouteMessage(s, c, sender, content).0
    case ChannelDone(c, sender) => EngineSpec.ChannelDone(s, c, sender).0
    case PeerFailed(c, j) => EngineSpec.PeerFailed(s, c, j).0
    case CancelRun(r, order) => EngineSpec.CancelRun(s, r, order)
    case Restart(stored, queue) => Restarted(stored, s.cap, queue)
  }

  ghost function ApplyAll(s: Engine, calls: seq<Call>): Engine {
    if calls == [] then s
    else Apply(ApplyAll(s, calls[..|calls| - 1]), calls[|calls| - 1])
  }

  ghost function RunningJobs(jobs: map<JobId, Job>): set<JobId> {
    set j | j in jobs && jobs[j].status.Running?
  }

  ghost predicate WithinSlots(s: Engine) {
    RunningJobs(s.jobs) <= s.active.Keys && s.beats.Keys <= s.active.Keys && |s.active| <= s.cap
  }

  lemma {:induction false} AddJobsNotRunning(store: map<JobId, Job>, m: map<string, JobId>, r: RunId, parent: JobId,
                                             specs: seq<PlannedJob>)
    requires forall i :: 0 <= i < |specs| ==> specs[i].local in m
    ensures RunningJobs(AddJobs(store, m, r, parent, specs)) <= RunningJobs(store)
  {
    if specs != [] {
      AddJobsNotRunning(store, m, r, parent, specs[..|specs| - 1]);
    }
  }

  lemma ReleasedWithinSlots(s: Engine, t: Engine, j: JobId)
    requires WithinSlots(s) && t.active == s.active - {j} && t.beats == s.beats - {j} && t.cap == s.cap
    requires RunningJobs(t.jobs) <= RunningJobs(s.jobs) - {j}
    ensures WithinSlots(t)
  {
    SubsetSize(t.active.Keys, s.active.Keys);
  }

  lemma FailWithinSlots(s: Engine, j: JobId, note: Note)
    requires WithinSlots(s)
    ensures WithinSlots(EngineSpec.MarkFailed(s, j, note))
  {
    hide WithinSlots;
    ReleasedWithinSlots(s, EngineSpec.MarkFailed(s, j, note), j);
  }

  lemma {:induction false} FailAllWithinSlots(s: Engine, order: seq<JobId>, note: Note)
    requires WithinSlots(s)
    ensures WithinSlots(FailAll(s, order, note))
  {
    if order != [] {
      FailAllWithinSlots(s, order[..|order| - 1], note);
      FailWithinSlots(FailAll(s, order[..|order| - 1], note), order[|order| - 1], note);
    }
  }

  lemma PromotedNotRunning(jobs: map<JobId, Job>, j: JobId, outputs: seq<ArtifactId>, r: RunId)
    ensures RunningJobs(Completing(jobs, j, outputs)) <= RunningJobs(jobs) - {j}
    ensures RunningJobs(Promote(Completing(jobs, j, outputs), r)) <= RunningJobs(jobs) - {j}
  {
    hide DepsDone;
  }

  lemma CompleteWithinSlots(s: Engine, j: JobId, outputs: seq<ArtifactId>, promoted: seq<JobId>)
    requires WithinSlots(s)
    ensures WithinSlots(EngineSpec.MarkCompleted(s, j, outputs, promoted))
  {
    hide WithinSlots, CheckCompletion, Promote, Completing, RunningJobs;
    if j in s.active {
      PromotedNotRunning(s.jobs, j, outputs, s.active[j]);
    } else {
      PromotedNotRunning(s.jobs, j, outputs, RunId(0));
    }
    ReleasedWithinSlots(s, EngineSpec.MarkCompleted(s, j, outputs, promoted), j);
  }

  lemma NextWithinSlots(s: Engine)
    requires WithinSlots(s)
    ensures WithinSlots(EngineSpec.NextJob(s).0)
  {
    if |s.active| < s.cap && s.queue != [] && s.queue[0] in s.jobs {
      var j := s.queue[0];
      assert s.active[j := s.jobs[j].run].Keys == s.active.Keys + {j};
    }
  }

  lemma MaterializeWithinSlots(s: Engine, r: RunId, parent: JobId, plan: Plan, ids: seq<JobId>)
    requires WithinSlots(s) && |ids| == |plan.jobs|
    ensures WithinSlots(MaterializePlan(s, r, parent, plan, ids))
  {
    var m := IdMap(plan.jobs, ids);
    IdMapKeys(plan.jobs, ids);
    assert forall i :: 0 <= i < |plan.jobs| ==> plan.jobs[i].local in m;
    AddJobsNotRunning(s.jobs, m, r, parent, plan.jobs);
  }

  lemma ApplyWithinSlots(s: Engine, c: Call)
    requires WithinSlots(s)
    ensures WithinSlots(Apply(s, c))
  {
    hide FailAll, EngineSpec.MarkFailed, EngineSpec.MarkCompleted, MaterializePlan, EngineSpec.NextJob;
    match c
    case NextJob => NextWithinSlots(s);
    case MarkCompleted(j, outputs, promoted) => CompleteWithinSlots(s, j, outputs, promoted);
    case MarkFailed(j, note) => FailWithinSlots(s, j, note);
    case Materialize(r, parent, plan, ids) =>
      if |ids| == |plan.jobs| { MaterializeWithinSlots(s, r, parent, plan, ids); }
    case CancelRun(r, order) => FailAllWithinSlots(s, order, CancelledByUser);
    case _ =>
  }

  lemma {:induction false} CallsWithinSlots(cap: nat, calls: seq<Call>)
    ensures WithinSlots(ApplyAll(Init(cap), calls)) && ApplyAll(Init(cap), calls).cap == cap
  {
    hide Apply;
    if calls != [] {
      var s := ApplyAll(Init(cap), calls[..|calls| - 1]);
      CallsWithinSlots(cap, calls[..|calls| - 1]);
      ApplyWithinSlots(s, calls[|calls| - 1]);
      SameCap(s, calls[|calls| - 1]);
    }
  }

  // An engine of that capacity, after any calls.
  ghost predicate Called(cap: nat, s: Engine) {
    exists calls :: s == ApplyAll(Init(cap), calls)
  }

  // Never more Running jobs than slots, never more slots than the cap; and
  // only slot-holding jobs are ever reported stale.
  lemma ConcurrencyCap(cap: nat, s: Engine, now: int, timeout: int)
    requires Called(cap, s)
    ensures RunningJobs(s.jobs) <= s.active.Keys && s.beats.Keys <= s.active.Keys
    ensures |RunningJobs(s.jobs)| <= |s.active| <= cap
    ensures StaleJobs(s, now, timeout) <= s.active.Keys
  {
    hide ApplyAll;
    var calls :| s == ApplyAll(Init(cap), calls);
    CallsWithinSlots(cap, calls);
    SubsetSize(RunningJobs(s.jobs), s.active.Keys);
    assert |s.active.Keys| == |s.active|;
  }

  lemma {:induction false} FailAllCap(s: Engine, order: seq<JobId>, note: Note)
    ensures FailAll(s, order, note).cap == s.cap
  {
    if order != [] {
      FailAllCap(s, order[..|order| - 1], note);
    }
  }

  lemma SameCap(s: Engine, c: Call)
    ensures Apply(s, c).cap == s.cap
  {
    if c.CancelRun? {
      FailAllCap(s, c.order, CancelledByUser);
    }
  }
}
