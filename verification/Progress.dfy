/** Dependencies over whole runs of the daemon: what is started is unblocked,
    work on an acyclic graph never gets stuck, finished work stays finished, and
    every job is in exactly one place. */
module Progress {
  import opened Types
  import opened Collections
  import opened Planner
  import opened Materialization
  import opened EngineSpec
  import opened EngineInv
  import opened EngineLife
  import opened Failures
  import opened Daemon
  import opened DaemonFrame
  import Channels

  // ---- Started jobs are unblocked ----

  // The job a spawn takes off the queue, if any.
  ghost function Picked(s: Engine): Option<JobId> {
    if |s.active| < s.cap && s.queue != [] then Some(s.queue[0]) else None
  }

  lemma StartedIsUnblocked(s: Engine, now: int)
    requires Inv(s) && Picked(s).Some?
    ensures var j, t := Picked(s).value, Spawn(s, now);
      && j in s.jobs && s.jobs[j].status.Ready? && s.jobs[j].run in s.runs
      && (Live(s.runs, s.jobs[j].run) || j == s.runs[s.jobs[j].run].root)
      && DepsDone(s.jobs, s.jobs[j].deps)
      && s.jobs[j].attempt < s.jobs[j].maxAttempts
      && t.jobs[j].status.Running? && t.jobs[j].attempt == s.jobs[j].attempt + 1
      && (forall k :: k in s.jobs && k != j ==> t.jobs[k] == s.jobs[k])
      && s.jobs[j].run in t.runs && t.runs[s.jobs[j].run].status ==
           (if s.runs[s.jobs[j].run].status.Pending? then RunStatus.Running else s.runs[s.jobs[j].run].status)
  {
    var j := s.queue[0];
    assert j in s.queue;
    SpawnShape(s, now);
    var done := DepsDone(s.jobs, s.jobs[j].deps);
    assert AttemptOk(s.jobs[j]);
  }

  // ---- Acyclic dependencies never get stuck ----

  // Ranks for the jobs of run r that rise along its dependencies.
  ghost predicate RankedIn(jobs: Jobs, r: RunId, rank: JobId -> nat) {
    forall j, d {:trigger d in jobs[j].deps} ::
      j in jobs && jobs[j].run == r && d in jobs[j].deps ==> rank(d) < rank(j)
  }

  ghost predicate AcyclicIn(jobs: Jobs, r: RunId) {
    exists rank: JobId -> nat :: RankedIn(jobs, r, rank)
  }

  // From a job that is not finished, following what it waits for leads to one
  // that is queued or running.
  lemma NoDeadlock(s: Engine, r: RunId, rank: JobId -> nat, j: JobId) returns (k: JobId)
    requires Inv(s) && Live(s.runs, r) && RankedIn(s.jobs, r, rank)
    requires forall x :: x in RunJobs(s.jobs, r) ==> !s.jobs[x].status.Failed?
    requires j in RunJobs(s.jobs, r) && !Terminal(s.jobs[j].status)
    ensures k in RunJobs(s.jobs, r) && (k in s.queue || k in s.active)
    decreases rank(j)
  {
    if s.jobs[j].status.Pending? {
      assert !DepsDone(s.jobs, s.jobs[j].deps);
      var d :| d in s.jobs[j].deps && !(d in s.jobs && s.jobs[d].status.Completed?);
      assert d in RunJobs(s.jobs, r) && AttemptOk(s.jobs[d]);
      k := NoDeadlock(s, r, rank, d);
    } else {
      k := j;
      assert j in s.queue || j in s.active;
    }
  }

  // ---- New jobs ----

  lemma {:induction false} SweepFrame(s: Engine, swept: seq<Completion>)
    ensures Sweep(s, swept).jobs.Keys == s.jobs.Keys
    ensures forall j :: j in Sweep(s, swept).active ==> j in s.active
  {
    if swept != [] {
      SweepFrame(s, swept[..|swept| - 1]);
    }
  }

  lemma OnFailedFrame(s: Engine, j: JobId, note: Note, cs: seq<ChannelId>)
    ensures OnFailed(s, j, note, cs).jobs.Keys == s.jobs.Keys
  {
    FailPeersShape(s, j, cs);
    FailAllQueue(s, Killed(s.channels, j, cs), Note.PeerFailed(j));
  }

  lemma CancelFrame(s: Engine, r: RunId, order: seq<JobId>)
    ensures CancelRun(s, r, order).jobs.Keys == s.jobs.Keys
  {
    FailAllQueue(s, order, CancelledByUser);
  }

  // Only a submission and a completed job bring new jobs.
  lemma OldJobsOnly(maxRevisions: nat, s: Engine, e: Event)
    requires !e.SubmitRun? && !e.JobCompleted? && Enabled(s, e)
    ensures Step(maxRevisions, s, e).jobs.Keys == s.jobs.Keys
  {
    match e
    case SpawnJob(now) => SpawnShape(s, now);
    case JobFailed(j, note, cs) => OnFailedFrame(s, j, note, cs);
    case MessageFrom(c, sender, content, swept) => SweepFrame(RouteMessage(s, c, sender, content).0, swept);
    case DoneFrom(c, sender, swept) => SweepFrame(ChannelDone(s, c, sender).0, swept);
    case Cancel(r, order) => CancelFrame(s, r, order);
    case _ =>
  }

  // ---- Acyclicity of a run is kept while the plans accepted for it are acyclic ----

  ghost predicate PlanRankedBy(plan: Plan, rank: string -> nat) {
    forall i, l {:trigger l in plan.jobs[i].deps} :: 0 <= i < |plan.jobs| && l in plan.jobs[i].deps ==>
      rank(l) < rank(plan.jobs[i].local)
  }

  ghost predicate PlanAcyclic(plan: Plan) {
    exists rank: string -> nat :: PlanRankedBy(plan, rank)
  }

  // If the event brings run r a plan, an acyclic one.
  ghost predicate BringsAcyclic(s: Engine, e: Event, r: RunId) {
    e.JobCompleted? && e.outcome.PlanText? && WellFormed(e.outcome.plan)
    && e.done.job in s.jobs && s.jobs[e.done.job].run == r && s.jobs[e.done.job].role.Planner? ==>
      PlanAcyclic(e.outcome.plan)
  }

  lemma EvolvedAcyclic(s: Engine, t: Engine, r: RunId)
    requires AcyclicIn(s.jobs, r) && Evolves(s, t) && t.jobs.Keys == s.jobs.Keys
    ensures AcyclicIn(t.jobs, r)
  {
    var rank: JobId -> nat :| RankedIn(s.jobs, r, rank);
    assert RankedIn(t.jobs, r, rank);
  }

  // Ranks for the jobs there were, and others for the jobs that are new.
  lemma AddedRanked(runs: Runs, jobs: Jobs, t: Jobs, x: RunId, r: RunId, more: JobId -> nat)
    requires RefsOk(runs, jobs) && AcyclicIn(jobs, r) && Extended(jobs, t, x)
    requires x == r ==> forall j, d :: j in t && j !in jobs && d in t[j].deps ==> more(d) < more(j)
    ensures AcyclicIn(t, r)
  {
    var rank: JobId -> nat :| RankedIn(jobs, r, rank);
    var both: JobId -> nat := j => if j in jobs then rank(j) else more(j);
    forall j, d | j in t && t[j].run == r && d in t[j].deps ensures both(d) < both(j) {
      if j in jobs {
        assert d in jobs[j].deps;
      }
    }
    assert RankedIn(t, r, both);
  }

  ghost function RealRankOf(plan: Plan, ids: seq<JobId>, rank: string -> nat, j: JobId): nat {
    if j in ids && IndexOf(ids, j) < |plan.jobs| then rank(plan.jobs[IndexOf(ids, j)].local) else 0
  }

  ghost function RealRank(plan: Plan, ids: seq<JobId>, rank: string -> nat): JobId -> nat {
    j => RealRankOf(plan, ids, rank, j)
  }

  lemma PlanRanks(plan: Plan, ids: seq<JobId>, rank: string -> nat, i: nat, deps: seq<JobId>, d: JobId)
    requires LocalsDistinct(plan.jobs) && |ids| == |plan.jobs| && Distinct(ids) && PlanRankedBy(plan, rank)
    requires i < |ids| && Image(plan, ids, plan.jobs[i].deps, deps) && d in deps
    ensures RealRank(plan, ids, rank)(d) < RealRank(plan, ids, rank)(ids[i])
  {
    ImageEdges(plan, ids, plan.jobs[i].deps, deps);
    var k := IndexOf(ids, d);
    assert plan.jobs[k].local in plan.jobs[i].deps;
    assert IndexOf(ids, ids[i]) == i;
  }

  lemma MaterializeAcyclic(t: Engine, x: RunId, j: JobId, plan: Plan, ids: seq<JobId>, r: RunId)
    requires RefsOk(t.runs, t.jobs) && AcyclicIn(t.jobs, r)
    requires WellFormed(plan) && FreshIds(plan, ids, t.jobs) && (x == r ==> PlanAcyclic(plan))
    ensures AcyclicIn(MaterializePlan(t, x, j, plan, ids).jobs, r)
  {
    hide RefsOk, MaterializePlan, JobOk;
    var u := MaterializePlan(t, x, j, plan, ids);
    MaterializeShape(t, x, j, plan, ids);
    if x == r {
      var planRank: string -> nat :| PlanRankedBy(plan, planRank);
      var more := RealRank(plan, ids, planRank);
      forall y, d | y in u.jobs && y !in t.jobs && d in u.jobs[y].deps ensures more(d) < more(y) {
        var i := IndexOf(ids, y);
        assert JobCopies(plan, ids, x, j, plan.jobs[i], u.jobs[ids[i]]);
        PlanRanks(plan, ids, planRank, i, u.jobs[y].deps, d);
      }
      AddedRanked(t.runs, t.jobs, u.jobs, x, r, more);
    } else {
      AddedRanked(t.runs, t.jobs, u.jobs, x, r, y => 0);
    }
  }

  lemma ReviewAcyclic(maxRevisions: nat, t: Engine, j: JobId, outcome: Outcome, r: RunId)
    requires RefsOk(t.runs, t.jobs) && AcyclicIn(t.jobs, r) && OutcomeOk(t, outcome)
    requires j in t.jobs && t.jobs[j].role.Reviewer? && outcome.Review?
    ensures AcyclicIn(AfterReviewer(maxRevisions, t, j, outcome).jobs, r)
  {
    hide RefsOk;
    var u := AfterReviewer(maxRevisions, t, j, outcome);
    ReviewShape(maxRevisions, t, j, outcome.decision, outcome.coder, outcome.reviewer);
    if u != t {
      AddedRanked(t.runs, t.jobs, u.jobs, t.jobs[j].run, r, x => if x == outcome.coder then 0 else 1) by {
        forall x, d | x in u.jobs && x !in t.jobs && d in u.jobs[x].deps
          ensures d == outcome.coder && x == outcome.reviewer
        {
          assert d != x && d in u.jobs && d !in t.jobs;
          assert u.jobs[outcome.coder].deps == [];
        }
      }
    }
  }

  lemma CompletedAcyclic(maxRevisions: nat, s: Engine, c: Completion, outcome: Outcome, r: RunId)
    requires Inv(s) && CompletionOk(s, c) && OutcomeOk(s, outcome) && AcyclicIn(s.jobs, r)
    requires BringsAcyclic(s, JobCompleted(c, outcome), r)
    ensures AcyclicIn(OnCompleted(maxRevisions, s, c, outcome).jobs, r)
  {
    hide RefsOk, AttemptsOk, DepsExact, RootsOk, QueueOk, SlotsOk, CapOk, Evolves, OnCompleted, OutcomeOk,
         MarkCompleted, CompletionOk, AcyclicIn, BringsAcyclic;
    var t, u := Complete(s, c), OnCompleted(maxRevisions, s, c, outcome);
    CompleteShape(s, c);
    if u.jobs.Keys == s.jobs.Keys {
      OnCompletedEvolves(maxRevisions, s, c, outcome);
      EvolvedAcyclic(s, u, r);
    } else {
      CompleteEvolves(s, c);
      CompletionKeeps(s, c);
      EvolvedAcyclic(s, t, r);
      OutcomeStaysOk(s, t, outcome);
      NewJobsAcyclic(maxRevisions, s, c, outcome, r);
    }
  }

  lemma NewJobsAcyclic(maxRevisions: nat, s: Engine, c: Completion, outcome: Outcome, r: RunId)
    requires var t, u := Complete(s, c), OnCompleted(maxRevisions, s, c, outcome);
      && RefsOk(t.runs, t.jobs) && AcyclicIn(t.jobs, r) && OutcomeOk(t, outcome)
      && t.jobs.Keys == s.jobs.Keys && c.job in s.jobs && t.jobs[c.job].role == s.jobs[c.job].role
      && u.jobs.Keys != t.jobs.Keys
    requires BringsAcyclic(s, JobCompleted(c, outcome), r)
    ensures AcyclicIn(OnCompleted(maxRevisions, s, c, outcome).jobs, r)
  {
    hide RefsOk, AcyclicIn, MaterializePlan, Complete;
    var t := Complete(s, c);
    if s.jobs[c.job].role.Planner? {
      MaterializeAcyclic(t, s.jobs[c.job].run, c.job, outcome.plan, outcome.ids, r);
    } else {
      ReviewAcyclic(maxRevisions, t, c.job, outcome, r);
    }
  }

  lemma SubmitAcyclic(s: Engine, x: RunId, root: JobId, task: string, r: RunId)
    requires RefsOk(s.runs, s.jobs) && AcyclicIn(s.jobs, r) && root !in s.jobs
    ensures AcyclicIn(Submit(s, x, root, task).jobs, r)
  {
    AddedRanked(s.runs, s.jobs, Submit(s, x, root, task).jobs, x, r, y => 0);
  }

  lemma StepAcyclic(maxRevisions: nat, s: Engine, e: Event, r: RunId)
    requires Inv(s) && Enabled(s, e) && AcyclicIn(s.jobs, r) && BringsAcyclic(s, e, r)
    ensures AcyclicIn(Step(maxRevisions, s, e).jobs, r)
  {
    hide QueueOk, SlotsOk, CapOk, AcyclicIn, BringsAcyclic, OnCompleted, Evolves;
    if e.JobCompleted? {
      CompletedAcyclic(maxRevisions, s, e.done, e.outcome, r);
    } else if e.SubmitRun? {
      SubmitAcyclic(s, e.run, e.root, e.task, r);
    } else {
      OldJobsOnly(maxRevisions, s, e);
      StepEvolves(maxRevisions, s, e);
      EvolvedAcyclic(s, Step(maxRevisions, s, e), r);
    }
  }

  // Every plan accepted for run r in the course of a history is acyclic. What
  // other runs are given does not matter.
  ghost predicate PlansAcyclic(maxRevisions: nat, s: Engine, history: seq<Event>, r: RunId) {
    history != [] ==>
      var n := |history| - 1;
      PlansAcyclic(maxRevisions, s, history[..n], r)
      && BringsAcyclic(Execute(maxRevisions, s, history[..n]), history[n], r)
  }

  lemma {:induction false} ExecuteAcyclic(maxRevisions: nat, s: Engine, history: seq<Event>, r: RunId)
    requires Inv(s) && AcyclicIn(s.jobs, r)
    requires Legal(maxRevisions, s, history) && PlansAcyclic(maxRevisions, s, history, r)
    ensures AcyclicIn(Execute(maxRevisions, s, history).jobs, r)
  {
    hide Inv, Step, Enabled, AcyclicIn, BringsAcyclic;
    if history != [] {
      var n := |history| - 1;
      ExecuteAcyclic(maxRevisions, s, history[..n], r);
      ExecuteKeepsInv(maxRevisions, s, history[..n]);
      StepAcyclic(maxRevisions, Execute(maxRevisions, s, history[..n]), history[n], r);
    }
  }

  // Deadlock freedom: in every reachable state, a run that is not cancelled,
  // whose own dependencies have no circle, has no failed job and is not
  // finished, has a job that is queued or holds a slot.
  lemma DeadlockFree(maxRevisions: nat, s: Engine, r: RunId, rank: JobId -> nat, j: JobId)
    requires Reachable(maxRevisions, s) && Live(s.runs, r) && RankedIn(s.jobs, r, rank)
    requires j in RunJobs(s.jobs, r) && !Terminal(s.jobs[j].status)
    requires forall x :: x in RunJobs(s.jobs, r) ==> !s.jobs[x].status.Failed?
    ensures exists k :: k in RunJobs(s.jobs, r) && (k in s.queue || k in s.active)
  {
    hide Reachable, Inv, RankedIn;
    ReachableInv(maxRevisions, s);
    var k := NoDeadlock(s, r, rank, j);
  }

  // The dependencies of a run have no circle if the plans accepted for it have none.
  lemma AcyclicPlansAcyclicRun(maxRevisions: nat, cap: nat, history: seq<Event>, r: RunId)
    requires Legal(maxRevisions, Init(cap), history) && PlansAcyclic(maxRevisions, Init(cap), history, r)
    ensures AcyclicIn(Execute(maxRevisions, Init(cap), history).jobs, r)
  {
    hide Legal, PlansAcyclic, Execute;
    InitInv(cap);
    assert RankedIn(map[], r, x => 0);
    ExecuteAcyclic(maxRevisions, Init(cap), history, r);
  }

  // ---- Dependency exactness over whole runs ----

  // At every moment a job is Pending exactly while something it depends on is not
  // Completed; so whatever has been started had everything it depends on.
  lemma DependencyExactness(maxRevisions: nat, s: Engine, j: JobId)
    requires Reachable(maxRevisions, s) && j in s.jobs
    ensures s.jobs[j].status.Pending? <==> exists d :: d in s.jobs[j].deps && !(d in s.jobs && s.jobs[d].status.Completed?)
  {
    ReachableInv(maxRevisions, s);
    assert s.jobs[j].status.Pending? <==> !DepsDone(s.jobs, s.jobs[j].deps);
  }

  // Between events, Completed is never left: the record stays as it is.
  lemma CompletedForever(maxRevisions: nat, s: Engine, t: Engine, j: JobId)
    requires Inv(s) && Reaches(maxRevisions, s, t) && j in s.jobs && s.jobs[j].status.Completed?
    ensures j in t.jobs && t.jobs[j] == s.jobs[j]
  {
    LaterEvolves(maxRevisions, s, t);
  }

  // ---- Where a job is ----

  lemma {:induction false} OnceInDistinct(queue: seq<JobId>, j: JobId)
    requires Distinct(queue)
    ensures multiset(queue)[j] == if j in queue then 1 else 0
  {
    if queue != [] {
      assert queue == [queue[0]] + queue[1..];
      assert queue[0] !in queue[1..];
      OnceInDistinct(queue[1..], j);
    }
  }

  // At every moment a job is in exactly one place: waiting for others, in the
  // queue (once, with attempts left), in a slot, finished, or, if it is the
  // planner of a cancelled run, laid aside.
  lemma Partition(maxRevisions: nat, s: Engine, j: JobId)
    requires Reachable(maxRevisions, s) && j in s.jobs
    ensures var b, queued := s.jobs[j], multiset(s.queue)[j];
      || (b.status.Pending? && queued == 0 && j !in s.active)
      || (b.status.Ready? && queued == 1 && j !in s.active && b.attempt < b.maxAttempts)
      || (b.status.Running? && queued == 0 && j in s.active && 0 < |s.active| <= s.cap)
      || (Terminal(b.status) && queued == 0 && j !in s.active)
      || (&& b.status.Ready? && queued == 0 && j !in s.active
          && CancelledRun(s.runs, b.run) && j == s.runs[b.run].root && b.role.Planner?)
  {
    hide Reachable, DepsExact;
    ReachableInv(maxRevisions, s);
    OnceInDistinct(s.queue, j);
    assert AttemptOk(s.jobs[j]);
    if j in s.active {
      assert j in s.active.Keys && |s.active.Keys| == |s.active|;
    }
  }
}
