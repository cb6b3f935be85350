/** Circular dependencies. Validation lets them through; jobs on a circle, and
    only they, keep a run from ever being finished without a failure. */
module Cycles {
  import opened Types
  import opened Collections
  import opened Planner
  import opened Materialization
  import opened EngineSpec
  import opened EngineInv
  import opened EngineLife
  import opened Failures
  import opened Daemon
  import opened DaemonFrame
  import opened Progress
  import Channels

  // ---- What a step completes held a slot ----

  // The jobs Completed in t that were not in jobs are among those given.
  ghost predicate CompletesOnly(jobs: Jobs, t: Jobs, allowed: set<JobId>) {
    forall j :: j in jobs && j in t && t[j].status.Completed? ==> jobs[j].status.Completed? || j in allowed
  }

  lemma {:induction false} FailAllCompletes(s: Engine, order: seq<JobId>, note: Note)
    ensures CompletesOnly(s.jobs, FailAll(s, order, note).jobs, {})
    ensures FailAll(s, order, note).jobs.Keys == s.jobs.Keys
  {
    if order != [] {
      FailAllCompletes(s, order[..|order| - 1], note);
    }
  }

  lemma {:induction false} SweepCompletes(s: Engine, c: ChannelId, participants: seq<JobId>, swept: seq<Completion>)
    requires Inv(s) && SweepOk(s, c, participants, swept)
    ensures CompletesOnly(s.jobs, Sweep(s, swept).jobs, s.active.Keys)
    decreases |participants|
  {
    hide RecordsOk, QueueOk, CapOk, MarkCompleted;
    if participants != [] {
      var rest, p := participants[..|participants| - 1], participants[|participants| - 1];
      if SweepOk(s, c, rest, swept) && !Finished(Sweep(s, swept), c, p) {
        SweepCompletes(s, c, rest, swept);
      } else {
        var t, last := Sweep(s, swept[..|swept| - 1]), swept[|swept| - 1];
        SweepCompletes(s, c, rest, swept[..|swept| - 1]);
        SweepKeeps(s, c, rest, swept[..|swept| - 1]);
        SweepFrame(s, swept[..|swept| - 1]);
        assert p in t.active;
        CompleteSpec(t, last);
      }
    }
  }

  lemma AfterPlannerCompletes(t: Engine, r: RunId, j: JobId, outcome: Outcome)
    requires OutcomeOk(t, outcome)
    ensures CompletesOnly(t.jobs, AfterPlanner(t, r, j, outcome).jobs, {})
  {
    if outcome.PlanText? && WellFormed(outcome.plan) {
      MaterializeShape(t, r, j, outcome.plan, outcome.ids);
    }
  }

  lemma AfterReviewerCompletes(maxRevisions: nat, t: Engine, j: JobId, outcome: Outcome)
    requires OutcomeOk(t, outcome)
    ensures CompletesOnly(t.jobs, AfterReviewer(maxRevisions, t, j, outcome).jobs, {})
  {
  }

  lemma OnCompletedCompletes(maxRevisions: nat, s: Engine, c: Completion, outcome: Outcome)
    requires Inv(s) && CompletionOk(s, c) && OutcomeOk(s, outcome)
    ensures CompletesOnly(s.jobs, OnCompleted(maxRevisions, s, c, outcome).jobs, s.active.Keys)
  {
    hide RecordsOk, QueueOk, CapOk, MarkCompleted, AfterPlanner, AfterReviewer, OutcomeOk;
    var t := Complete(s, c);
    CompleteSpec(s, c);
    OutcomeStaysOk(s, t, outcome);
    AfterPlannerCompletes(t, s.jobs[c.job].run, c.job, outcome);
    AfterReviewerCompletes(maxRevisions, t, c.job, outcome);
  }

  lemma OnFailedCompletes(s: Engine, j: JobId, note: Note, cs: seq<ChannelId>)
    ensures CompletesOnly(s.jobs, OnFailed(s, j, note, cs).jobs, {})
  {
    FailPeersShape(s, j, cs);
    FailAllCompletes(s, Killed(s.channels, j, cs), Note.PeerFailed(j));
  }

  lemma OnActionCompletes(s: Engine, t: Engine, c: ChannelId, action: Channels.Action, swept: seq<Completion>)
    requires Inv(s) && t == s.(channels := t.channels) && ActionOk(t, c, action, swept)
    ensures CompletesOnly(s.jobs, OnAction(t, action, swept).jobs, s.active.Keys)
  {
    SameScheduleInv(s, t);
    if action.Close? && c in t.channels {
      SweepCompletes(t, c, t.channels[c].participants, swept);
    }
  }

  lemma SpawnCompletes(s: Engine, now: int)
    ensures CompletesOnly(s.jobs, Spawn(s, now).jobs, {})
  {
    SpawnShape(s, now);
  }

  lemma RestartCompletes(s: Engine, stored: Records, queue: seq<JobId>)
    requires Behind(stored, s)
    ensures CompletesOnly(s.jobs, Restarted(stored, s.cap, queue).jobs, {})
  {
  }

  lemma CancelCompletes(s: Engine, r: RunId, order: seq<JobId>)
    ensures CompletesOnly(s.jobs, CancelRun(s, r, order).jobs, {})
  {
    FailAllCompletes(s, order, CancelledByUser);
  }

  lemma StepCompletes(maxRevisions: nat, s: Engine, e: Event)
    requires Inv(s) && Enabled(s, e)
    ensures CompletesOnly(s.jobs, Step(maxRevisions, s, e).jobs, s.active.Keys)
  {
    hide Inv, OnCompleted, OnFailed, OnAction, Spawn, CancelRun, Restarted, Behind, KillsOk, CompletionOk;
    match e
    case SpawnJob(now) => SpawnCompletes(s, now);
    case JobCompleted(c, outcome) => OnCompletedCompletes(maxRevisions, s, c, outcome);
    case JobFailed(j, note, cs) => OnFailedCompletes(s, j, note, cs);
    case MessageFrom(c, sender, content, swept) =>
      var (t, action) := RouteMessage(s, c, sender, content);
      OnActionCompletes(s, t, c, action, swept);
    case DoneFrom(c, sender, swept) =>
      var (t, action) := ChannelDone(s, c, sender);
      OnActionCompletes(s, t, c, action, swept);
    case Cancel(r, order) => CancelCompletes(s, r, order);
    case Restart(stored, queue) => RestartCompletes(s, stored, queue);
    case _ =>
  }

  // ---- A circle never starts ----

  ghost predicate WaitsWithin(jobs: Jobs, circle: set<JobId>, j: JobId) {
    j in jobs && !jobs[j].status.Completed? && exists d :: d in circle && d in jobs[j].deps
  }

  // Jobs that wait for one another: each for one of the set, none Completed.
  ghost predicate Circle(jobs: Jobs, circle: set<JobId>) {
    forall j :: j in circle ==> WaitsWithin(jobs, circle, j)
  }

  lemma BlockedIsIdle(s: Engine, j: JobId, d: JobId)
    requires QueueOk(s.runs, s.jobs, s.queue) && SlotsOk(s.jobs, s.active) && DepsExact(s.jobs)
    requires j in s.jobs && d in s.jobs[j].deps && d in s.jobs && !s.jobs[d].status.Completed?
    ensures j !in s.queue && j !in s.active
  {
    assert !DepsDone(s.jobs, s.jobs[j].deps);
  }

  lemma CircleIsIdle(s: Engine, circle: set<JobId>, j: JobId)
    requires Inv(s) && Circle(s.jobs, circle) && j in circle
    ensures j !in s.queue && j !in s.active
  {
    assert WaitsWithin(s.jobs, circle, j);
    var d :| d in circle && d in s.jobs[j].deps;
    assert WaitsWithin(s.jobs, circle, d);
    BlockedIsIdle(s, j, d);
  }

  lemma CircleStays(maxRevisions: nat, s: Engine, e: Event, circle: set<JobId>)
    requires Inv(s) && Enabled(s, e) && Circle(s.jobs, circle)
    ensures Circle(Step(maxRevisions, s, e).jobs, circle)
  {
    var t := Step(maxRevisions, s, e);
    StepEvolves(maxRevisions, s, e);
    StepCompletes(maxRevisions, s, e);
    forall j | j in circle ensures WaitsWithin(t.jobs, circle, j) {
      CircleIsIdle(s, circle, j);
      assert WaitsWithin(s.jobs, circle, j);
    }
  }

  // The other half of deadlock freedom: whatever happens afterwards, jobs on a
  // circle are never queued, never started and never completed.
  lemma {:induction false} CircleNeverStarts(maxRevisions: nat, s: Engine, history: seq<Event>, circle: set<JobId>)
    requires Inv(s) && Legal(maxRevisions, s, history) && Circle(s.jobs, circle)
    ensures var t := Execute(maxRevisions, s, history);
      && Circle(t.jobs, circle)
      && forall j :: j in circle ==> j !in t.queue && j !in t.active
  {
    if history != [] {
      var n := |history| - 1;
      CircleNeverStarts(maxRevisions, s, history[..n], circle);
      ExecuteKeepsInv(maxRevisions, s, history[..n]);
      CircleStays(maxRevisions, Execute(maxRevisions, s, history[..n]), history[n], circle);
    }
    var t := Execute(maxRevisions, s, history);
    ExecuteKeepsInv(maxRevisions, s, history);
    forall j | j in circle ensures j !in t.queue && j !in t.active {
      CircleIsIdle(t, circle, j);
    }
  }

  // ---- Deadlock is a circle ----

  // A live run without failures in which nothing is queued or running: what is
  // unfinished waits for what is unfinished.
  lemma StuckIsCircle(s: Engine, r: RunId)
    requires Inv(s) && Live(s.runs, r)
    requires forall j :: j in RunJobs(s.jobs, r) ==>
      !s.jobs[j].status.Failed? && j !in s.queue && j !in s.active
    ensures Circle(s.jobs, Unfinished(s.jobs, r))
  {
    hide QueueOk, SlotsOk, CapOk, RootsOk;
    var circle := Unfinished(s.jobs, r);
    forall j | j in circle ensures WaitsWithin(s.jobs, circle, j) {
      UnfinishedIsPending(s, r, j);
      assert !DepsDone(s.jobs, s.jobs[j].deps);
      var d :| d in s.jobs[j].deps && !(d in s.jobs && s.jobs[d].status.Completed?);
      assert d in RunJobs(s.jobs, r) && AttemptOk(s.jobs[d]);
      assert d in circle;
    }
  }

  lemma UnfinishedIsPending(s: Engine, r: RunId, j: JobId)
    requires QueueOk(s.runs, s.jobs, s.queue) && SlotsOk(s.jobs, s.active) && Live(s.runs, r)
    requires j in Unfinished(s.jobs, r) && j !in s.queue && j !in s.active
    ensures s.jobs[j].status.Pending?
  {
  }

  // Deadlock, exactly: in any reachable state a live run without failures has
  // no job in the queue or in a slot if and only if its unfinished jobs form a
  // circle (an empty one, if it has finished). CircleNeverStarts says that a
  // circle stays one for ever.
  lemma DeadlockIffCircle(maxRevisions: nat, s: Engine, r: RunId)
    requires Reachable(maxRevisions, s) && Live(s.runs, r)
    requires forall j :: j in RunJobs(s.jobs, r) ==> !s.jobs[j].status.Failed?
    ensures (forall j :: j in RunJobs(s.jobs, r) ==> j !in s.queue && j !in s.active)
            <==> Circle(s.jobs, Unfinished(s.jobs, r))
  {
    hide Reachable, Inv, Circle;
    ReachableInv(maxRevisions, s);
    if forall j :: j in RunJobs(s.jobs, r) ==> j !in s.queue && j !in s.active {
      StuckIsCircle(s, r);
    }
    if Circle(s.jobs, Unfinished(s.jobs, r)) {
      forall j | j in RunJobs(s.jobs, r) ensures j !in s.queue && j !in s.active {
        if j in Unfinished(s.jobs, r) {
          CircleIsIdle(s, Unfinished(s.jobs, r), j);
        } else {
          FinishedIsIdle(s, j);
        }
      }
    }
  }

  lemma FinishedIsIdle(s: Engine, j: JobId)
    requires Inv(s) && j in s.jobs && Terminal(s.jobs[j].status)
    ensures j !in s.queue && j !in s.active
  {
  }

  // ---- Circles in plans ----

  ghost predicate PlanWaitsWithin(circle: set<string>, p: PlannedJob) {
    exists l :: l in circle && l in p.deps
  }

  ghost predicate PlanCircle(plan: Plan, circle: set<string>) {
    && circle <= Locals(plan.jobs)
    && forall i :: 0 <= i < |plan.jobs| && plan.jobs[i].local in circle ==> PlanWaitsWithin(circle, plan.jobs[i])
  }

  // A plan can be ranked exactly when it contains no circle.
  lemma AcyclicIffNoCircle(plan: Plan)
    requires WellFormed(plan)
    ensures PlanAcyclic(plan) <==> forall circle :: PlanCircle(plan, circle) ==> circle == {}
  {
    if PlanAcyclic(plan) {
      var rank: string -> nat :| PlanRankedBy(plan, rank);
      forall circle | PlanCircle(plan, circle) ensures circle == {} {
        if l :| l in circle {
          NoRankOnCircle(plan, rank, circle, l);
        }
      }
    }
    if forall circle :: PlanCircle(plan, circle) ==> circle == {} {
      var rank := RankWithin(plan, Locals(plan.jobs));
      assert PlanRankedBy(plan, rank);
    }
  }

  lemma NoRankOnCircle(plan: Plan, rank: string -> nat, circle: set<string>, l: string)
    requires PlanRankedBy(plan, rank) && PlanCircle(plan, circle) && l in circle
    ensures false
    decreases rank(l)
  {
    var i :| 0 <= i < |plan.jobs| && plan.jobs[i].local == l;
    assert PlanWaitsWithin(circle, plan.jobs[i]);
    var d :| d in circle && d in plan.jobs[i].deps;
    NoRankOnCircle(plan, rank, circle, d);
  }

  lemma FirstAmong(plan: Plan, among: set<string>) returns (i: nat)
    requires among <= Locals(plan.jobs) && !PlanCircle(plan, among)
    ensures i < |plan.jobs| && plan.jobs[i].local in among
    ensures forall l :: l in among ==> l !in plan.jobs[i].deps
  {
    i :| 0 <= i < |plan.jobs| && plan.jobs[i].local in among && !PlanWaitsWithin(among, plan.jobs[i]);
  }

  ghost predicate RanksWithin(plan: Plan, among: set<string>, rank: string -> nat) {
    forall i, l :: 0 <= i < |plan.jobs| && plan.jobs[i].local in among && l in among && l in plan.jobs[i].deps ==>
      rank(l) < rank(plan.jobs[i].local)
  }

  // Peel off jobs that wait for none of the remaining ones.
  lemma RankWithin(plan: Plan, among: set<string>) returns (rank: string -> nat)
    requires LocalsDistinct(plan.jobs) && among <= Locals(plan.jobs)
    requires forall circle :: PlanCircle(plan, circle) ==> circle == {}
    ensures RanksWithin(plan, among, rank)
    decreases |among|
  {
    if among == {} {
      rank := x => 0;
    } else {
      var i := FirstAmong(plan, among);
      var first := plan.jobs[i].local;
      var rest := RankWithin(plan, among - {first});
      rank := x => if x == first then 0 else rest(x) + 1;
    }
  }

  ghost function RealCircle(plan: Plan, ids: seq<JobId>, circle: set<string>): set<JobId>
    requires |ids| == |plan.jobs|
  {
    set i | 0 <= i < |ids| && plan.jobs[i].local in circle :: ids[i]
  }

  lemma RealCircleWaits(plan: Plan, ids: seq<JobId>, circle: set<string>, i: nat, deps: seq<JobId>)
    requires LocalsDistinct(plan.jobs) && |ids| == |plan.jobs| && Distinct(ids) && PlanCircle(plan, circle)
    requires i < |ids| && plan.jobs[i].local in circle && Image(plan, ids, plan.jobs[i].deps, deps)
    ensures exists d :: d in RealCircle(plan, ids, circle) && d in deps
  {
    ImageEdges(plan, ids, plan.jobs[i].deps, deps);
    assert PlanWaitsWithin(circle, plan.jobs[i]);
    var l :| l in circle && l in plan.jobs[i].deps;
    assert l in Locals(plan.jobs);
    var k :| 0 <= k < |plan.jobs| && plan.jobs[k].local == l;
    assert ids[k] in RealCircle(plan, ids, circle) && ids[k] in deps;
  }

  lemma CopyWaits(plan: Plan, ids: seq<JobId>, r: RunId, parent: JobId, circle: set<string>, i: nat, jobs: Jobs)
    requires LocalsDistinct(plan.jobs) && |ids| == |plan.jobs| && Distinct(ids) && PlanCircle(plan, circle)
    requires i < |ids| && plan.jobs[i].local in circle && ids[i] in jobs
    requires JobCopies(plan, ids, r, parent, plan.jobs[i], jobs[ids[i]])
    ensures WaitsWithin(jobs, RealCircle(plan, ids, circle), ids[i])
  {
    RealCircleWaits(plan, ids, circle, i, jobs[ids[i]].deps);
  }

  // A circle in an accepted plan becomes a circle of jobs.
  lemma PlanCircleWaits(t: Engine, r: RunId, parent: JobId, plan: Plan, ids: seq<JobId>, circle: set<string>)
    requires WellFormed(plan) && FreshIds(plan, ids, t.jobs) && PlanCircle(plan, circle)
    ensures Circle(MaterializePlan(t, r, parent, plan, ids).jobs, RealCircle(plan, ids, circle))
  {
    hide JobCopies, Extended, MaterializePlan, PlanCircle, WaitsWithin;
    var u := MaterializePlan(t, r, parent, plan, ids);
    MaterializeShape(t, r, parent, plan, ids);
    forall j | j in RealCircle(plan, ids, circle)
      ensures WaitsWithin(u.jobs, RealCircle(plan, ids, circle), j)
    {
      var i :| 0 <= i < |ids| && plan.jobs[i].local in circle && ids[i] == j;
      CopyWaits(plan, ids, r, parent, circle, i, u.jobs);
    }
  }

  function Waiting(name: string, dep: string): PlannedJob {
    PlannedJob(name, name, name, name, [dep])
  }

  function LoopPlan(a: string, b: string): Plan {
    Plan([Waiting(a, b), Waiting(b, a)], [])
  }

  lemma LoopLocals(a: string, b: string)
    ensures Locals(LoopPlan(a, b).jobs) == {a, b}
  {
    var jobs := LoopPlan(a, b).jobs;
    assert jobs[0].local == a && jobs[1].local == b;
  }

  lemma LoopIsCircle(a: string, b: string)
    ensures PlanCircle(LoopPlan(a, b), {a, b})
  {
    LoopLocals(a, b);
    var jobs := LoopPlan(a, b).jobs;
    assert b in jobs[0].deps && a in jobs[1].deps;
    assert PlanWaitsWithin({a, b}, jobs[0]) && PlanWaitsWithin({a, b}, jobs[1]);
  }

  lemma LoopIsWellFormed(a: string, b: string)
    requires a != b && !Blank(a) && !Blank(b)
    ensures WellFormed(LoopPlan(a, b))
  {
    LoopLocals(a, b);
    var jobs := LoopPlan(a, b).jobs;
    assert JobOk({a, b}, Waiting(a, b)) && JobOk({a, b}, Waiting(b, a));
    forall i | 0 <= i < |jobs| ensures JobOk({a, b}, jobs[i]) {
      assert jobs[i] == if i == 0 then Waiting(a, b) else Waiting(b, a);
    }
  }

  // Validation lets circles through: it only rejects a job that names itself.
  // Two jobs of any two names that wait for each other are accepted.
  lemma CyclicPlanAccepted(a: string, b: string)
    requires a != b && !Blank(a) && !Blank(b)
    ensures var plan := LoopPlan(a, b);
      WellFormed(plan) && PlanCircle(plan, {a, b}) && !PlanAcyclic(plan)
  {
    LoopIsWellFormed(a, b);
    LoopIsCircle(a, b);
    AcyclicIffNoCircle(LoopPlan(a, b));
    assert a in {a, b};
  }

  // Put together: once a plan with a circle has been materialized, the jobs on
  // it are never queued, never started and never completed, whatever happens later.
  lemma CyclicPlanIsStuck(maxRevisions: nat, s: Engine, r: RunId, parent: JobId, plan: Plan, ids: seq<JobId>,
                          circle: set<string>, t: Engine, i: nat)
    requires Inv(s) && Live(s.runs, r) && !Undecided(s.runs, r)
    requires WellFormed(plan) && FreshIds(plan, ids, s.jobs) && PlanCircle(plan, circle)
    requires Reaches(maxRevisions, MaterializePlan(s, r, parent, plan, ids), t)
    requires i < |ids| && plan.jobs[i].local in circle
    ensures ids[i] in t.jobs && !t.jobs[ids[i]].status.Completed? && ids[i] !in t.queue && ids[i] !in t.active
  {
    hide Inv, MaterializePlan, WellFormed, PlanCircle, Legal, Execute;
    var u := MaterializePlan(s, r, parent, plan, ids);
    var later :| Legal(maxRevisions, u, later) && t == Execute(maxRevisions, u, later);
    MaterializeKeeps(s, r, parent, plan, ids);
    PlanCircleWaits(s, r, parent, plan, ids, circle);
    CircleNeverStarts(maxRevisions, u, later, RealCircle(plan, ids, circle));
    assert ids[i] in RealCircle(plan, ids, circle);
    assert WaitsWithin(t.jobs, RealCircle(plan, ids, circle), ids[i]);
  }
}
