/** Cancelling a run: what it does to others, how long it lasts, when it is
    accepted, and exactly which late reports and restarts undo it. */
module Cancellation {
  import opened Types
  import opened Collections
  import opened Planner
  import opened Materialization
  import opened EngineSpec
  import opened EngineExact
  import opened EngineInv
  import opened EngineLife
  import opened Failures
  import opened Daemon
  import opened DaemonFrame
  import opened Progress
  import opened Rest
  import Channels

  // No job of run r is queued, holds a slot, or is next to be started.
  ghost predicate Quiet(s: Engine, r: RunId) {
    && (forall j :: j in s.queue ==> j in s.jobs && s.jobs[j].run != r)
    && (forall j :: j in s.active ==> s.active[j] != r)
    && (Picked(s).Some? ==> Picked(s).value in s.jobs && s.jobs[Picked(s).value].run != r)
  }

  lemma RestIsQuiet(s: Engine, r: RunId)
    requires Inv(s) && CancelledRun(s.runs, r)
    ensures AtRest(s, r) <==> Quiet(s, r)
  {
    if Picked(s).Some? {
      assert s.queue[0] in s.queue;
    }
  }

  // Cancellation is final and quiet within a session: whatever happens, a
  // cancelled run at rest stays cancelled and at rest, and its jobs stay as they
  // are.
  lemma CancellationIsFinal(maxRevisions: nat, s: Engine, history: seq<Event>, r: RunId)
    requires Inv(s) && CancelledRun(s.runs, r) && Quiet(s, r)
    requires Legal(maxRevisions, s, history) && Session(history)
    ensures var t := Execute(maxRevisions, s, history);
      && CancelledRun(t.runs, r) && Quiet(t, r)
      && (forall j :: j in RunJobs(s.jobs, r) ==> j in t.jobs && t.jobs[j] == s.jobs[j])
      && RunJobs(t.jobs, r) == RunJobs(s.jobs, r)
  {
    hide Inv, Legal, Execute, Quiet;
    var t := Execute(maxRevisions, s, history);
    RestIsQuiet(s, r);
    SessionRests(maxRevisions, s, history);
    ExecuteKeepsInv(maxRevisions, s, history);
    RestIsQuiet(t, r);
  }

  // A restart leaves its records alone too, but queues its planner again, if
  // that was not on its last attempt.
  lemma RestartRevivesIff(s: Engine, stored: Records, queue: seq<JobId>, r: RunId, j: JobId)
    requires Inv(s) && Enabled(s, Restart(stored, queue)) && AtRest(s, r) && j in RunJobs(s.jobs, r)
    ensures var t := Restarted(stored, s.cap, queue);
      && CancelledRun(t.runs, r) && t.runs[r] == s.runs[r] && j in t.jobs && t.jobs[j] == s.jobs[j]
      && (j in t.queue <==> s.jobs[j].status.Ready?)
      && (AtRest(t, r) <==> !s.jobs[j].status.Ready?)
  {
    hide RefsOk, DepsExact, AttemptsOk, QueueOk, CapOk, RestartedChannels;
    var t := Restarted(stored, s.cap, queue);
    RestingRecord(s, stored, j);
    RecoveredIs(stored.jobs, j);
    assert j in t.queue <==> s.jobs[j].status.Ready?;
    forall k | k in t.jobs && t.jobs[k].run == r ensures k == j {
      RecoveredIs(stored.jobs, k);
      SameRunStored(s, stored, k);
      assert k == s.runs[r].root;
    }
  }

  lemma SameRunStored(s: Engine, stored: Records, k: JobId)
    requires Behind(stored, s) && k in stored.jobs
    ensures k in s.jobs && Recovered(stored.jobs[k]).run == s.jobs[k].run
  {
  }

  lemma RestingRecord(s: Engine, stored: Records, j: JobId)
    requires SlotsOk(s.jobs, s.active) && Behind(stored, s) && j in s.jobs && j !in s.active
    requires CancelledRun(s.runs, s.jobs[j].run)
    ensures j in stored.jobs && stored.jobs[j] == s.jobs[j] && Recovered(stored.jobs[j]) == s.jobs[j]
    ensures s.jobs[j].run in stored.runs && stored.runs[s.jobs[j].run] == s.runs[s.jobs[j].run]
  {
  }

  // A cancellation that is accepted gives such a state.
  lemma CancellationCancels(s: Engine, r: RunId, order: seq<JobId>)
    requires Inv(s) && Undecided(s.runs, r) && Enabled(s, Cancel(r, order))
    ensures Inv(CancelRun(s, r, order)) && CancelledRun(CancelRun(s, r, order).runs, r)
    ensures Quiet(CancelRun(s, r, order), r)
  {
    hide RecordsOk, QueueOk, SlotsOk, CapOk, CancelRun, Quiet;
    CancelSpec(s, r, order) by { assert SlotsOk(s.jobs, s.active); }
    CancelKeeps(s, r, order);
    CancelledRests(s, CancelRun(s, r, order), r);
    RestIsQuiet(CancelRun(s, r, order), r);
  }

  lemma CancelledRests(s: Engine, t: Engine, r: RunId)
    requires SlotsOk(s.jobs, s.active) && EngineLife.Cancelled(s, t, r)
    ensures AtRest(t, r)
  {
    forall j | j in t.jobs && t.jobs[j].run == r ensures j !in t.queue && j !in t.active {
      assert j in s.jobs && s.jobs[j].run == r;
      assert j in s.active ==> j in Unfinished(s.jobs, r);
    }
  }

  // In terms of the status: cancelling makes a run Cancelled if it was Pending or
  // Running, and does nothing at all otherwise.
  lemma CancelEffectIff(s: Engine, r: RunId, order: seq<JobId>)
    requires Inv(s) && Enabled(s, Cancel(r, order)) && r in s.runs
    ensures var t := CancelRun(s, r, order);
      if s.runs[r].status.Pending? || s.runs[r].status.Running? then r in t.runs && t.runs[r].status.Cancelled? else t == s
  {
    hide RecordsOk, QueueOk, CapOk, FailAll, Filter, EngineLife.Cancelled;
    if s.runs[r].status.Pending? || s.runs[r].status.Running? {
      CancellationCancels(s, r, order);
    }
  }

  // Other runs do not notice: their records, jobs and slots are what they were,
  // and their queued jobs are all still queued, in the same order.
  lemma CancellationIsolates(s: Engine, r: RunId, order: seq<JobId>)
    requires Inv(s) && Undecided(s.runs, r) && Enabled(s, Cancel(r, order))
    ensures var c := CancelRun(s, r, order);
      && c.runs.Keys == s.runs.Keys && c.jobs.Keys == s.jobs.Keys
      && (forall x :: x in s.runs && x != r ==> c.runs[x] == s.runs[x])
      && (forall j :: j in s.jobs && s.jobs[j].run != r ==>
            && c.jobs[j] == s.jobs[j]
            && (j in c.active <==> j in s.active) && (j in c.queue <==> j in s.queue))
      && c.queue == Filter(s.queue, Foreign(s.jobs, r))
      && |c.active| <= |s.active|
  {
    hide RecordsOk, QueueOk, SlotsOk, CapOk, FailAll, CancelRun, EngineLife.Cancelled;
    CancelSpec(s, r, order);
    CancelledIsolates(s, CancelRun(s, r, order), r);
  }

  lemma CancelledIsolates(s: Engine, c: Engine, r: RunId)
    requires EngineLife.Cancelled(s, c, r)
    ensures c.runs.Keys == s.runs.Keys && c.jobs.Keys == s.jobs.Keys
    ensures forall x :: x in s.runs && x != r ==> c.runs[x] == s.runs[x]
    ensures forall j :: j in s.jobs && s.jobs[j].run != r ==>
      c.jobs[j] == s.jobs[j] && (j in c.active <==> j in s.active) && (j in c.queue <==> j in s.queue)
    ensures c.queue == Filter(s.queue, Foreign(s.jobs, r)) && |c.active| <= |s.active|
  {
    assert c.active.Keys <= s.active.Keys;
    SubsetSize(c.active.Keys, s.active.Keys);
  }

  // A run can be cancelled only while it has no job but its planner: the
  // planner's completion gives the run its verdict before the plan is
  // materialized, and a decided run is never undecided again.
  lemma CancelledOnlyWhilePlanning(s: Engine, r: RunId, order: seq<JobId>)
    requires Inv(s) && Enabled(s, Cancel(r, order)) && CancelRun(s, r, order) != s
    ensures r in s.runs && RunJobs(s.jobs, r) <= {s.runs[r].root}
  {
    assert Undecided(s.runs, r);
  }

  lemma CancelRefusedAfterPlanning(maxRevisions: nat, s: Engine, c: Completion, outcome: Outcome,
                                   t: Engine, order: seq<JobId>)
    requires Inv(s) && Enabled(s, JobCompleted(c, outcome))
    requires Reaches(maxRevisions, OnCompleted(maxRevisions, s, c, outcome), t)
    ensures CancelRun(t, s.active[c.job], order) == t
  {
    hide Inv, Reaches, Evolves, OutcomeOk;
    var r, u := s.active[c.job], OnCompleted(maxRevisions, s, c, outcome);
    OnCompletedDecides(maxRevisions, s, c, outcome);
    StepKeepsInv(maxRevisions, s, JobCompleted(c, outcome));
    LaterEvolves(maxRevisions, u, t);
    StaysDecided(u, t, r);
  }

  lemma StaysDecided(s: Engine, t: Engine, r: RunId)
    requires Evolves(s, t) && r in s.runs && !Undecided(s.runs, r)
    ensures r in t.runs && !Undecided(t.runs, r)
  {
  }

  lemma OnCompletedDecides(maxRevisions: nat, s: Engine, c: Completion, outcome: Outcome)
    requires Inv(s) && CompletionOk(s, c)
    ensures s.active[c.job] in OnCompleted(maxRevisions, s, c, outcome).runs
    ensures !Undecided(OnCompleted(maxRevisions, s, c, outcome).runs, s.active[c.job])
  {
    hide RecordsOk, QueueOk, SlotsOk, CapOk, MarkCompleted, WellFormed, MaterializePlan, HandleReview;
    var t := Complete(s, c);
    CompleteDecides(s, c.job, c.outputs, c.promoted);
    SlotFreed(s, c);
    HandleReviewRuns(maxRevisions, t, c.job, outcome);
    AfterPlannerRuns(t, if c.job in s.jobs then s.jobs[c.job].run else s.active[c.job], c.job, outcome);
  }

  lemma SlotFreed(s: Engine, c: Completion)
    ensures c.job !in Complete(s, c).active
  {
  }

  lemma AfterPlannerRuns(t: Engine, r: RunId, j: JobId, outcome: Outcome)
    requires j !in t.active
    ensures AfterPlanner(t, r, j, outcome).runs == t.runs
  {
  }

  lemma HandleReviewRuns(maxRevisions: nat, t: Engine, j: JobId, outcome: Outcome)
    ensures AfterReviewer(maxRevisions, t, j, outcome).runs == t.runs
  {
  }

  // ---- Late reports ----

  // What the worker of a cancelled job may still have reported: that it is done,
  // with whatever its text is parsed as, or that it failed. The job holds no
  // slot any more; the program acts on the report all the same.
  datatype Report = Done(outputs: seq<ArtifactId>, outcome: Outcome) | Died(note: Note)

  ghost function Late(maxRevisions: nat, s: Engine, j: JobId, report: Report): Engine {
    match report
    case Done(outputs, outcome) => OnCompleted(maxRevisions, s, Completion(j, outputs, []), outcome)
    case Died(note) => OnFailed(s, j, note, [])
  }

  ghost predicate BringsPlan(report: Report) {
    report.Done? && report.outcome.PlanText? && WellFormed(report.outcome.plan)
  }

  // Whether the report makes the program queue a job of the run again: it
  // retries a planner that failed or whose text is no acceptable plan, if it
  // has attempts left, and it queues the jobs of an acceptable plan that wait
  // for nothing.
  ghost predicate Revives(s: Engine, j: JobId, report: Report)
    requires j in s.jobs
  {
    if BringsPlan(report) then
      exists i :: 0 <= i < |report.outcome.plan.jobs| && report.outcome.plan.jobs[i].deps == []
    else
      s.jobs[j].attempt < s.jobs[j].maxAttempts
      && (report.Died? || report.outcome.BadText? || report.outcome.PlanText?)
  }

  ghost predicate SomeQueued(t: Engine, r: RunId) {
    exists k :: k in t.queue && k in t.jobs && t.jobs[k].run == r
  }

  // The planner of a cancelled run at rest that takes part in no channel. (No
  // planner of a cancelled run does: ChannelLife.PlannersOfCancelledRunsHaveNoSeat.)
  ghost predicate CancelledPlanner(s: Engine, j: JobId) {
    && j in s.jobs && s.jobs[j].role.Planner? && AtRest(s, s.jobs[j].run)
    && ActiveChannelsOf(s, j) == {}
  }

  ghost predicate ReportOk(s: Engine, report: Report) {
    report.Done? ==> OutcomeOk(s, report.outcome)
  }

  // A late report, whichever it is, leaves the run's record as it is, and puts
  // a job of the run in the queue if and only if it revives it.
  lemma LateReportRevivesIff(maxRevisions: nat, s: Engine, j: JobId, report: Report)
    requires Inv(s) && CancelledPlanner(s, j) && ReportOk(s, report)
    ensures Late(maxRevisions, s, j, report).runs == s.runs
    ensures SomeQueued(Late(maxRevisions, s, j, report), s.jobs[j].run) <==> Revives(s, j, report)
  {
    hide RecordsOk, CapOk, OnCompleted, OnFailed, JobOk;
    assert j !in s.active;
    match report
    case Died(note) =>
      LateFailure(s, j, note);
    case Done(outputs, outcome) =>
      if BringsPlan(report) {
        LatePlan(maxRevisions, s, j, outputs, outcome.plan, outcome.ids);
      } else {
        LateText(maxRevisions, s, j, outputs, outcome);
      }
  }

  lemma LateFailure(s: Engine, j: JobId, note: Note)
    requires QueueOk(s.runs, s.jobs, s.queue) && j in s.jobs && j !in s.active && AtRest(s, s.jobs[j].run)
    ensures var t := OnFailed(s, j, note, []);
      && t == MarkFailed(s, j, note) && t.runs == s.runs
      && (SomeQueued(t, s.jobs[j].run) <==> s.jobs[j].attempt < s.jobs[j].maxAttempts)
  {
    FailedLate(s, s, j, note);
  }

  // Failing a job without a slot, after its record may have been changed.
  lemma FailedLate(s: Engine, u: Engine, j: JobId, note: Note)
    requires QueueOk(s.runs, s.jobs, s.queue) && j in s.jobs && AtRest(s, s.jobs[j].run)
    requires u.queue == s.queue && j in u.jobs && u.jobs == s.jobs[j := u.jobs[j]] && j !in u.active
    requires u.jobs[j].run == s.jobs[j].run && u.jobs[j].attempt == s.jobs[j].attempt
    requires u.jobs[j].maxAttempts == s.jobs[j].maxAttempts
    ensures var t := MarkFailed(u, j, note);
      t.runs == u.runs && (SomeQueued(t, s.jobs[j].run) <==> s.jobs[j].attempt < s.jobs[j].maxAttempts)
  {
    var t, r := MarkFailed(u, j, note), s.jobs[j].run;
    if t.jobs[j].status.Ready? {
      assert t.queue[|s.queue|] == j && j in t.queue;
    } else {
      assert t.queue == s.queue;
      forall k | k in t.queue && k in t.jobs ensures t.jobs[k].run != r {
        assert k in s.jobs && s.jobs[k].run != r;
      }
    }
  }

  lemma LateText(maxRevisions: nat, s: Engine, j: JobId, outputs: seq<ArtifactId>, outcome: Outcome)
    requires Inv(s) && CancelledPlanner(s, j) && j !in s.active && !BringsPlan(Done(outputs, outcome))
    ensures var t := OnCompleted(maxRevisions, s, Completion(j, outputs, []), outcome);
      && t.runs == s.runs
      && (SomeQueued(t, s.jobs[j].run) <==> Revives(s, j, Done(outputs, outcome)))
  {
    hide RecordsOk, CapOk, WellFormed, MarkFailed;
    var r, c := s.jobs[j].run, Completion(j, outputs, []);
    var u := Complete(s, c);
    assert u.queue == s.queue && u.runs == s.runs && j !in u.active;
    assert u.jobs == s.jobs[j := s.jobs[j].(status := JobStatus.Completed, outputs := outputs)];
    if Rejects(s, j, outcome) {
      FailedLate(s, u, j, PlanRejected);
    } else {
      forall k | k in u.queue && k in u.jobs ensures u.jobs[k].run != r {
        assert k in s.jobs && s.jobs[k].run != r;
      }
    }
  }

  lemma LatePlan(maxRevisions: nat, s: Engine, j: JobId, outputs: seq<ArtifactId>, plan: Plan, ids: seq<JobId>)
    requires Inv(s) && CancelledPlanner(s, j) && WellFormed(plan) && FreshIds(plan, ids, s.jobs)
    ensures var t := OnCompleted(maxRevisions, s, Completion(j, outputs, []), PlanText(plan, ids));
      && t.runs == s.runs
      && (SomeQueued(t, s.jobs[j].run) <==> exists i :: 0 <= i < |plan.jobs| && plan.jobs[i].deps == [])
  {
    hide Inv, Complete, MaterializePlan, WellFormed, Extended, JobCopies, CopiedReady;
    var r, c := s.jobs[j].run, Completion(j, outputs, []);
    var u := Complete(s, c);
    LateCompletion(s, c);
    RestIsQuiet(s, r) by { RestIsCancelled(s, r); }
    MaterializeShape(u, r, j, plan, ids);
    CopiesReady(plan, ids, r, j, MaterializePlan(u, r, j, plan, ids).jobs);
    RevivedIff(u, MaterializePlan(u, r, j, plan, ids), r, plan, ids);
  }

  lemma RestIsCancelled(s: Engine, r: RunId)
    requires AtRest(s, r)
    ensures CancelledRun(s.runs, r)
  {
  }

  lemma LateCompletion(s: Engine, c: Completion)
    requires Inv(s) && c.job in s.jobs && AtRest(s, s.jobs[c.job].run)
    ensures var u := Complete(s, c);
      && u.queue == s.queue && u.runs == s.runs && u.jobs.Keys == s.jobs.Keys
      && forall k :: k in s.jobs ==> u.jobs[k].run == s.jobs[k].run
  {
    assert c.job !in s.active;
  }

  lemma CopiesReady(plan: Plan, ids: seq<JobId>, r: RunId, j: JobId, jobs: Jobs)
    requires |ids| == |plan.jobs|
    requires forall i :: 0 <= i < |ids| ==>
      ids[i] in jobs && JobCopies(plan, ids, r, j, plan.jobs[i], jobs[ids[i]])
    ensures CopiedReady(plan, ids, r, jobs)
  {
    hide Image;
  }

  ghost predicate CopiedReady(plan: Plan, ids: seq<JobId>, r: RunId, jobs: Jobs)
    requires |ids| == |plan.jobs|
  {
    forall i :: 0 <= i < |ids| ==>
      ids[i] in jobs && jobs[ids[i]].run == r && (jobs[ids[i]].status.Ready? <==> plan.jobs[i].deps == [])
  }

  lemma RevivedIff(u: Engine, t: Engine, r: RunId, plan: Plan, ids: seq<JobId>)
    requires |ids| == |plan.jobs| && CopiedReady(plan, ids, r, t.jobs)
    requires forall k :: k in u.queue ==> k in u.jobs && u.jobs[k].run != r
    requires forall k :: k in u.jobs ==> k in t.jobs && t.jobs[k] == u.jobs[k]
    requires t.queue == u.queue + Filter(ids, x => x in t.jobs && t.jobs[x].status.Ready?)
    ensures SomeQueued(t, r) <==> exists i :: 0 <= i < |plan.jobs| && plan.jobs[i].deps == []
  {
    var isReady := x => x in t.jobs && t.jobs[x].status.Ready?;
    var queued := Filter(ids, isReady);
    if i :| 0 <= i < |plan.jobs| && plan.jobs[i].deps == [] {
      assert ids[i] in ids && isReady(ids[i]);
      assert ids[i] in queued && ids[i] in t.queue;
    }
    if k :| k in t.queue && k in t.jobs && t.jobs[k].run == r {
      assert k in queued && isReady(k);
      var i :| 0 <= i < |ids| && ids[i] == k;
      assert plan.jobs[i].deps == [];
    }
  }

  // ---- What becomes of the status ----

  // The status of a cancelled run whose jobs are at work again stays Cancelled
  // until they have all finished; then the verdict replaces it.
  lemma CancelledUntilFinished(s: Engine, j: JobId, outputs: seq<ArtifactId>, promoted: seq<JobId>, note: Note)
    requires j in s.active && CancelledRun(s.runs, s.active[j])
    ensures var r, t := s.active[j], MarkCompleted(s, j, outputs, promoted);
      && r in t.runs && (CancelledRun(t.runs, r) <==> !AllTerminal(t.jobs, r))
      && (AllTerminal(t.jobs, r) ==> t.runs[r].status == Verdict(t.jobs, r))
    ensures var r, t := s.active[j], MarkFailed(s, j, note);
      && r in t.runs && (CancelledRun(t.runs, r) <==> !AllTerminal(t.jobs, r))
      && (AllTerminal(t.jobs, r) ==> t.runs[r].status == Verdict(t.jobs, r))
  {
    hide AllTerminal, SomeFailed, FinalOutputs, Promote;
  }

  // A planner whose failure is reported late is the only job queued, in an
  // engine that had nothing queued.
  lemma FailedLateAlone(s: Engine, j: JobId, note: Note)
    requires j in s.jobs && j !in s.active && s.jobs[j].attempt < s.jobs[j].maxAttempts && s.queue == []
    ensures var u := OnFailed(s, j, note, []);
      && u.queue == [j] && u.active == s.active && u.cap == s.cap && u.runs == s.runs
      && j in u.jobs && u.jobs.Keys == s.jobs.Keys && forall k :: k in s.jobs ==> u.jobs[k].run == s.jobs[k].run
  {
    assert s.active - {j} == s.active;
  }

  lemma StartedAlone(u: Engine, j: JobId, now: int)
    requires u.queue == [j] && j in u.jobs && CancelledRun(u.runs, u.jobs[j].run) && |u.active| < u.cap
    ensures var t := Spawn(u, now);
      && j in t.active && t.active[j] == u.jobs[j].run && t.runs == u.runs
      && t.jobs.Keys == u.jobs.Keys && forall k :: k in u.jobs ==> t.jobs[k].run == u.jobs[k].run
  {
    SpawnShape(u, now);
  }

  // The planner of a cancelled run that is at work again, after a restart or a
  // late report: whatever it brings, completing it gives the run the verdict
  // Completed; failing it leaves the run Cancelled with the planner queued, or
  // Failed if it has no attempts left.
  lemma RevivedRun(maxRevisions: nat, s: Engine, c: Completion, outcome: Outcome, note: Note)
    requires Inv(s) && CompletionOk(s, c) && CancelledRun(s.runs, s.active[c.job])
    ensures c.job in s.jobs
    ensures var r, t := s.active[c.job], OnCompleted(maxRevisions, s, c, outcome);
      r in t.runs && t.runs[r].status.Completed?
    ensures var r, b, t := s.active[c.job], s.jobs[c.job], OnFailed(s, c.job, note, []);
      if b.attempt < b.maxAttempts then CancelledRun(t.runs, r) && c.job in t.queue
      else r in t.runs && t.runs[r].status.Failed?
  {
    hide RefsOk, AttemptsOk, DepsExact, QueueOk, CapOk, AllTerminal, SomeFailed, FinalOutputs, MarkCompleted, MarkFailed,
      WellFormed, MaterializePlan, HandleReview;
    var r, t := s.active[c.job], Complete(s, c);
    CancelledUntilFinished(s, c.job, c.outputs, c.promoted, note);
    OnlyJobDone(s, c, note);
    SlotFreed(s, c);
    HandleReviewRuns(maxRevisions, t, c.job, outcome);
    AfterPlannerRuns(t, r, c.job, outcome);
  }

  lemma OnlyJobDone(s: Engine, c: Completion, note: Note)
    requires SlotsOk(s.jobs, s.active) && RootsOk(s.runs, s.jobs) && CompletionOk(s, c)
    requires CancelledRun(s.runs, s.active[c.job])
    ensures c.job in s.jobs && s.active[c.job] == s.jobs[c.job].run
    ensures var u, r := Complete(s, c), s.active[c.job]; AllTerminal(u.jobs, r) && !SomeFailed(u.jobs, r)
    ensures var u, r, b := MarkFailed(s, c.job, note), s.active[c.job], s.jobs[c.job];
      if b.attempt < b.maxAttempts then !AllTerminal(u.jobs, r) && c.job in u.queue
      else AllTerminal(u.jobs, r) && SomeFailed(u.jobs, r)
  {
    hide FinalOutputs, CheckCompletion;
    CompleteSpec(s, c);
    var r, u, v := s.active[c.job], Complete(s, c), MarkFailed(s, c.job, note);
    assert c.job in RunJobs(u.jobs, r) && forall k :: k in RunJobs(u.jobs, r) ==> k == c.job;
    assert c.job in RunJobs(v.jobs, r) && forall k :: k in RunJobs(v.jobs, r) ==> k == c.job;
    if v.jobs[c.job].status.Ready? {
      assert v.queue[|s.queue|] == c.job;
    }
  }

  // So a late failure of the planner can undo the cancellation altogether: the
  // planner is started again, and when it completes the run is Completed.
  lemma LateFailureUndoesCancellation(s: Engine, j: JobId, note: Note, now: int, outputs: seq<ArtifactId>)
    requires Inv(s) && CancelledPlanner(s, j) && s.jobs[j].attempt < s.jobs[j].maxAttempts
    requires s.queue == [] && |s.active| < s.cap
    ensures var r, t := s.jobs[j].run, Spawn(OnFailed(s, j, note, []), now);
      && j in t.active && t.active[j] == r && CancelledRun(t.runs, r)
      && MarkCompleted(t, j, outputs, []).runs[r].status.Completed?
  {
    hide RefsOk, DepsExact, AttemptsOk, RootsOk, CapOk, AllTerminal, SomeFailed, MarkCompleted, Spawn, OnFailed;
    assert j !in s.active;
    FailedLateAlone(s, j, note);
    var u := OnFailed(s, j, note, []);
    StartedAlone(u, j, now);
    var t := Spawn(u, now);
    CancelledUntilFinished(t, j, outputs, [], note);
    OnlyPlannerFinishes(s, t, j, outputs);
  }

  lemma OnlyPlannerFinishes(s: Engine, t: Engine, j: JobId, outputs: seq<ArtifactId>)
    requires RootsOk(s.runs, s.jobs) && j in s.jobs && CancelledRun(s.runs, s.jobs[j].run)
    requires j in t.active && t.active[j] == s.jobs[j].run && t.jobs.Keys == s.jobs.Keys
    requires forall k :: k in s.jobs ==> t.jobs[k].run == s.jobs[k].run
    ensures var u, r := MarkCompleted(t, j, outputs, []), s.jobs[j].run;
      AllTerminal(u.jobs, r) && !SomeFailed(u.jobs, r)
  {
    hide DepsDone, FinalOutputs, CheckCompletion;
    var u, r := MarkCompleted(t, j, outputs, []), s.jobs[j].run;
    assert u.jobs.Keys == s.jobs.Keys && forall k :: k in s.jobs ==> u.jobs[k].run == s.jobs[k].run;
    assert j in RunJobs(u.jobs, r) && forall k :: k in RunJobs(u.jobs, r) ==> k == j;
  }

  // ---- Finality, late reports included ----

  datatype Happening = Ordinary(event: Event) | LateReport(job: JobId, report: Report)

  ghost function Happen(maxRevisions: nat, s: Engine, h: Happening): Engine {
    match h
    case Ordinary(e) => Step(maxRevisions, s, e)
    case LateReport(j, report) => Late(maxRevisions, s, j, report)
  }

  // Late reports that neither revive their run nor bring it a plan.
  ghost predicate MayHappen(s: Engine, h: Happening) {
    match h
    case Ordinary(e) => Enabled(s, e) && !e.Restart?
    case LateReport(j, report) =>
      CancelledPlanner(s, j) && ReportOk(s, report) && !Revives(s, j, report) && !BringsPlan(report)
  }

  lemma NobodyWaits(s: Engine, j: JobId)
    requires Inv(s) && j in s.jobs && CancelledRun(s.runs, s.jobs[j].run)
    ensures NobodyStarted(s.jobs, j) && StillBlocked(s.jobs, j)
    ensures !s.jobs[j].status.Pending? && !s.jobs[j].status.Cancelled?
  {
    hide QueueOk, SlotsOk, CapOk;
    assert AttemptOk(s.jobs[j]);
    forall k | k in s.jobs && j in s.jobs[k].deps ensures false {
    }
    assert DepsDone(s.jobs, s.jobs[j].deps);
  }

  lemma LateFailKeeps(s: Engine, j: JobId, note: Note)
    requires Inv(s) && j in s.jobs && AtRest(s, s.jobs[j].run)
    ensures Inv(MarkFailed(s, j, note)) && MarkFailed(s, j, note).runs == s.runs
  {
    hide RecordsOk, QueueOk, CapOk, NobodyStarted, StillBlocked;
    assert j !in s.active && j !in s.queue;
    NobodyWaits(s, j);
    FailKeepsInvIff(s, j, note);
  }

  lemma LateCompleteKeeps(s: Engine, c: Completion)
    requires Inv(s) && c.job in s.jobs && AtRest(s, s.jobs[c.job].run) && c.promoted == []
    ensures var t := Complete(s, c);
      && Inv(t) && t.runs == s.runs && c.job in t.jobs && t.jobs[c.job].run == s.jobs[c.job].run
      && t.queue == s.queue && AtRest(t, s.jobs[c.job].run)
      && t.jobs.Keys == s.jobs.Keys && (forall k :: k in s.jobs && k != c.job ==> t.jobs[k] == s.jobs[k])
  {
    hide RecordsOk, QueueOk, CapOk, NobodyStarted, StillBlocked;
    assert c.job !in s.active && c.job !in s.queue;
    NobodyWaits(s, c.job);
    CompleteKeepsInvIff(s, c.job, c.outputs, c.promoted);
  }

  // Late reports keep the invariant exactly if they bring no acceptable plan: a
  // plan gives the cancelled run jobs besides its planner.
  lemma LateReportKeepsInvIff(maxRevisions: nat, s: Engine, j: JobId, report: Report)
    requires Inv(s) && CancelledPlanner(s, j) && ReportOk(s, report)
    ensures Inv(Late(maxRevisions, s, j, report)) <==> !BringsPlan(report)
  {
    hide Inv, MarkFailed, MarkCompleted, WellFormed, MaterializePlan;
    match report
    case Died(note) => LateFailKeeps(s, j, note);
    case Done(outputs, outcome) =>
      var c := Completion(j, outputs, []);
      LateCompleteKeeps(s, c);
      if BringsPlan(report) {
        LatePlanBreaks(Complete(s, c), s.jobs[j].run, j, outcome.plan, outcome.ids);
      } else if Rejects(s, j, outcome) {
        LateFailKeeps(Complete(s, c), j, PlanRejected);
      }
  }

  lemma LatePlanBreaks(u: Engine, r: RunId, j: JobId, plan: Plan, ids: seq<JobId>)
    requires CancelledRun(u.runs, r) && j in u.jobs && u.jobs[j].run == r && Inv(u)
    requires WellFormed(plan) && FreshIds(plan, ids, u.jobs)
    ensures !Inv(MaterializePlan(u, r, j, plan, ids))
  {
    hide MaterializePlan, JobOk, Extended, Image, QueueOk, SlotsOk, CapOk, DepsExact, AttemptsOk, RefsOk, Filter;
    MaterializeShape(u, r, j, plan, ids);
    var t := MaterializePlan(u, r, j, plan, ids);
    assert ids[0] in ids;
    assert ids[0] in t.jobs && t.jobs[ids[0]].run == r;
    assert j == u.runs[r].root;
  }

  lemma HappeningKeeps(maxRevisions: nat, s: Engine, h: Happening, r: RunId)
    requires Inv(s) && AtRest(s, r) && MayHappen(s, h)
    ensures Inv(Happen(maxRevisions, s, h)) && AtRest(Happen(maxRevisions, s, h), r)
  {
    hide Inv, Enabled, Step, Late, Revives, AtRest, Untouched, BringsPlan;
    match h
    case Ordinary(e) =>
      StepKeepsInv(maxRevisions, s, e);
      StepRests(maxRevisions, s, e);
    case LateReport(j, report) =>
      LateReportKeepsInvIff(maxRevisions, s, j, report);
      LateReportRests(maxRevisions, s, j, report, r);
  }

  lemma LateReportRests(maxRevisions: nat, s: Engine, j: JobId, report: Report, r: RunId)
    requires Inv(s) && AtRest(s, r) && CancelledPlanner(s, j) && ReportOk(s, report)
    requires !Revives(s, j, report) && !BringsPlan(report)
    ensures AtRest(Late(maxRevisions, s, j, report), r)
  {
    hide Inv, RecordsOk, QueueOk, WellFormed;
    assert j !in s.active && j !in s.queue by { RestOf(s, j); }
    match report
    case Died(note) =>
    case Done(outputs, outcome) =>
      LateCompleteKeeps(s, Completion(j, outputs, []));
  }

  lemma RestOf(s: Engine, j: JobId)
    requires j in s.jobs && AtRest(s, s.jobs[j].run)
    ensures j !in s.active && j !in s.queue
  {
  }

  ghost function HappenAll(maxRevisions: nat, s: Engine, hs: seq<Happening>): Engine {
    if hs == [] then s else Happen(maxRevisions, HappenAll(maxRevisions, s, hs[..|hs| - 1]), hs[|hs| - 1])
  }

  ghost predicate AllMayHappen(maxRevisions: nat, s: Engine, hs: seq<Happening>) {
    hs != [] ==>
      AllMayHappen(maxRevisions, s, hs[..|hs| - 1])
      && MayHappen(HappenAll(maxRevisions, s, hs[..|hs| - 1]), hs[|hs| - 1])
  }

  // Cancellation is final and quiet over any events of the session, late reports
  // that do not revive their runs among them.
  lemma {:induction false} CancellationStands(maxRevisions: nat, s: Engine, hs: seq<Happening>, r: RunId)
    requires Inv(s) && CancelledRun(s.runs, r) && Quiet(s, r) && AllMayHappen(maxRevisions, s, hs)
    ensures var t := HappenAll(maxRevisions, s, hs);
      Inv(t) && CancelledRun(t.runs, r) && Quiet(t, r)
  {
    hide Inv, Happen, MayHappen, Quiet;
    RestIsQuiet(s, r);
    if hs != [] {
      var n := |hs| - 1;
      var t := HappenAll(maxRevisions, s, hs[..n]);
      CancellationStands(maxRevisions, s, hs[..n], r);
      RestIsQuiet(t, r);
      HappeningKeeps(maxRevisions, t, hs[n], r);
      RestIsQuiet(HappenAll(maxRevisions, s, hs), r);
    }
  }
}
