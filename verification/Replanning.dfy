/** Why termination is promised only for plans without planners: a planner whose
    plan is another planner, whose plan is another planner, and so on, keeps the
    daemon busy for ever. Validation accepts every one of those plans. */
module Replanning {
  import opened Types
  import opened Collections
  import opened Planner
  import opened Materialization
  import opened EngineSpec
  import opened EngineInv
  import opened EngineLife
  import opened Failures
  import opened Daemon
  import opened DaemonFrame
  import opened Progress

  const NAME: string := "planner"

  // A plan of one job, a planner.
  function OnePlanner(): Plan {
    Plan([PlannedJob(NAME, NAME, NAME, NAME, [])], [])
  }

  lemma OnePlannerIsWellFormed()
    ensures WellFormed(OnePlanner())
  {
    var jobs := OnePlanner().jobs;
    assert !IsSpace(NAME[0]);
    assert !Blank(NAME);
    assert jobs[0].deps == [];
    forall i | 0 <= i < |jobs| ensures JobOk(Locals(jobs), jobs[i]) {
      assert i == 0;
    }
  }

  // Start the planner; it completes, and asks for the next one.
  ghost function EventAt(i: nat): Event {
    if i % 2 == 0 then SpawnJob(0)
    else JobCompleted(Completion(JobId(i / 2), [], []), PlanText(OnePlanner(), [JobId(i / 2 + 1)]))
  }

  ghost function StateAt(maxRevisions: nat, i: nat): Engine {
    if i == 0 then Submit(Init(1), RunId(0), JobId(0), [])
    else Step(maxRevisions, StateAt(maxRevisions, i - 1), EventAt(i - 1))
  }

  // Before planner k is started: it waits in the queue, its k predecessors are done.
  ghost predicate Waiting(s: Engine, k: nat) {
    && Inv(s) && s.cap == 1 && s.queue == [JobId(k)] && s.active == map[]
    && (forall j :: j in s.jobs <==> j.n <= k)
    && (forall j :: j in s.jobs ==> s.jobs[j].run == RunId(0) && s.jobs[j].deps == [] && s.jobs[j].role.Planner?)
  }

  ghost predicate Working(s: Engine, k: nat) {
    && Inv(s) && s.cap == 1 && s.queue == [] && s.active.Keys == {JobId(k)}
    && (forall j :: j in s.jobs <==> j.n <= k)
    && (forall j :: j in s.jobs ==> s.jobs[j].run == RunId(0) && s.jobs[j].deps == [] && s.jobs[j].role.Planner?)
  }

  lemma StartPlanner(s: Engine, k: nat)
    requires Waiting(s, k)
    ensures Working(Spawn(s, 0), k) && Spawn(s, 0).jobs != s.jobs
  {
    hide Inv, DepsDone, JobsEvolve;
    SpawnShape(s, 0);
    SpawnKeeps(s, 0);
    StartedIsUnblocked(s, 0);
  }

  lemma NothingToPromote(s: Engine, k: nat)
    requires Working(s, k)
    ensures JobId(k) in s.active && PromotedBy(s, JobId(k), []) == {}
    ensures s.active[JobId(k)] == RunId(0)
  {
    assert JobId(k) in s.active;
    forall j | j in s.jobs ensures !s.jobs[j].status.Pending? {
      assert DepsDone(s.jobs, s.jobs[j].deps);
    }
  }

  lemma NextPlannerEnabled(s: Engine, k: nat)
    requires Working(s, k)
    ensures Enabled(s, JobCompleted(Completion(JobId(k), [], []), PlanText(OnePlanner(), [JobId(k + 1)])))
  {
    hide Inv, WellFormed;
    NothingToPromote(s, k);
    OnePlannerIsWellFormed();
  }

  lemma FinishPlanner(maxRevisions: nat, s: Engine, k: nat)
    requires Working(s, k)
    ensures var t := OnCompleted(maxRevisions, s, Completion(JobId(k), [], []), PlanText(OnePlanner(), [JobId(k + 1)]));
      Waiting(t, k + 1) && t.jobs != s.jobs
  {
    hide Inv, Enabled, WellFormed, MaterializePlan, Extended, Complete, JobCopies, Filter;
    var c, plan, ids := Completion(JobId(k), [], []), OnePlanner(), [JobId(k + 1)];
    var u, t := Complete(s, c), OnCompleted(maxRevisions, s, c, PlanText(plan, ids));
    OnePlannerIsWellFormed();
    FinishedJobs(s, k);
    assert t == MaterializePlan(u, RunId(0), JobId(k), plan, ids);
    MaterializeShape(u, RunId(0), JobId(k), plan, ids) by { assert FreshIds(plan, ids, u.jobs); }
    NewPlanner(u, t, k, ids);
    NextPlannerEnabled(s, k);
    StepKeepsInv(maxRevisions, s, JobCompleted(c, PlanText(plan, ids)));
    GrownJobs(u, t, k, ids);
  }

  lemma GrownJobs(u: Engine, t: Engine, k: nat, ids: seq<JobId>)
    requires ids == [JobId(k + 1)] && (forall j :: j in u.jobs <==> j.n <= k)
    requires t.jobs.Keys == u.jobs.Keys + (set id | id in ids)
    ensures forall j :: j in t.jobs <==> j.n <= k + 1
  {
    assert ids[0] in ids;
    forall j ensures j in t.jobs <==> j.n <= k + 1 {
      assert j.n == k + 1 ==> j == ids[0];
    }
  }

  lemma FinishedJobs(s: Engine, k: nat)
    requires Working(s, k)
    ensures var u := Complete(s, Completion(JobId(k), [], []));
      && u.queue == [] && u.active == map[] && u.cap == 1 && u.jobs.Keys == s.jobs.Keys
      && (forall j :: j in u.jobs ==> u.jobs[j].run == RunId(0) && u.jobs[j].deps == [] && u.jobs[j].role.Planner?)
  {
    hide Inv, CheckCompletion, DepsDone;
    NothingToPromote(s, k);
    assert s.active - {JobId(k)} == map[];
  }

  lemma NewPlanner(u: Engine, t: Engine, k: nat, ids: seq<JobId>)
    requires JobId(k + 1) !in u.jobs && ids == [JobId(k + 1)]
    requires t.jobs.Keys == u.jobs.Keys + (set id | id in ids)
    requires forall i :: 0 <= i < |ids| ==>
      JobCopies(OnePlanner(), ids, RunId(0), JobId(k), OnePlanner().jobs[i], t.jobs[ids[i]])
    ensures JobId(k + 1) in t.jobs
    ensures var b := t.jobs[JobId(k + 1)]; b.run == RunId(0) && b.deps == [] && b.role.Planner? && b.status.Ready?
    ensures Filter(ids, j => j in t.jobs && t.jobs[j].status.Ready?) == ids
  {
    assert ids[0] == JobId(k + 1) && ids[0] in ids;
    assert JobCopies(OnePlanner(), ids, RunId(0), JobId(k), OnePlanner().jobs[0], t.jobs[ids[0]]);
    assert ids[1..] == [];
  }

  lemma {:induction false} Rounds(maxRevisions: nat, k: nat)
    ensures Waiting(StateAt(maxRevisions, 2 * k), k) && Working(StateAt(maxRevisions, 2 * k + 1), k)
    ensures StateAt(maxRevisions, 2 * k + 1).jobs != StateAt(maxRevisions, 2 * k).jobs
    ensures StateAt(maxRevisions, 2 * k + 2).jobs != StateAt(maxRevisions, 2 * k + 1).jobs
    ensures Waiting(StateAt(maxRevisions, 2 * k + 2), k + 1)
  {
    hide Waiting, Working, OnCompleted, Spawn;
    if k == 0 {
      FirstPlanner(maxRevisions);
    } else {
      Rounds(maxRevisions, k - 1);
    }
    StartPlanner(StateAt(maxRevisions, 2 * k), k);
    assert EventAt(2 * k) == SpawnJob(0);
    FinishPlanner(maxRevisions, StateAt(maxRevisions, 2 * k + 1), k);
    assert (2 * k + 1) / 2 == k;
  }

  lemma FirstPlanner(maxRevisions: nat)
    ensures Waiting(StateAt(maxRevisions, 0), 0)
  {
    InitInv(1);
    SubmitKeeps(Init(1), RunId(0), JobId(0), []);
  }

  lemma NextState(maxRevisions: nat, i: nat)
    ensures StateAt(maxRevisions, i + 1) == Step(maxRevisions, StateAt(maxRevisions, i), EventAt(i))
  {
  }

  lemma EventEnabled(s: Engine, i: nat)
    requires if i % 2 == 0 then Waiting(s, i / 2) else Working(s, i / 2)
    ensures Inv(s) && Enabled(s, EventAt(i)) && !EventAt(i).SubmitRun?
  {
    hide Inv;
    if i % 2 == 1 {
      NextPlannerEnabled(s, i / 2);
    }
  }

  // So the run never settles: no submission after the first, every event
  // enabled, every accepted plan well formed, and every step changes the jobs.
  lemma PlannersNeverSettle(maxRevisions: nat, i: nat)
    ensures var s, e := StateAt(maxRevisions, i), EventAt(i);
      && Inv(s) && Enabled(s, e) && !e.SubmitRun?
      && StateAt(maxRevisions, i + 1) == Step(maxRevisions, s, e)
      && StateAt(maxRevisions, i + 1).jobs != s.jobs
  {
    hide Inv, Enabled, Step, StateAt, EventAt, Waiting, Working;
    Rounds(maxRevisions, i / 2);
    assert i == 2 * (i / 2) + i % 2;
    NextState(maxRevisions, i);
    EventEnabled(StateAt(maxRevisions, i), i);
    EventKind(i);
  }

  lemma EventKind(i: nat)
    ensures !EventAt(i).SubmitRun?
  {
  }
}
