/** The verdict on a finished run, over whole runs of the daemon. */
module Verdicts {
  import opened Types
  import opened Collections
  import opened Planner
  import opened Materialization
  import opened EngineSpec
  import opened EngineExact
  import opened EngineInv
  import opened EngineLife
  import opened Failures
  import opened Daemon
  import opened DaemonFrame
  import opened Progress
  import Channels

  // The record of run r says what its jobs say: Failed exactly if a job
  // Failed, and the final artifacts are those of the jobs nothing waits for.
  ghost predicate Settled(runs: Runs, jobs: Jobs, r: RunId) {
    && r in runs
    && runs[r].status == Verdict(jobs, r)
    && runs[r].finals == Artifacts(FinalOutputs(jobs, r))
  }

  // ---- Runs a step does not touch ----

  // What failed it, in words, is no part of a job's result.
  ghost predicate SameResult(b: Job, c: Job) {
    c == b.(error := c.error)
  }

  ghost predicate SameRun(s: Engine, t: Engine, r: RunId) {
    && (r in s.runs <==> r in t.runs)
    && (r in s.runs ==> t.runs[r].status == s.runs[r].status && t.runs[r].finals == s.runs[r].finals)
    && RunJobs(s.jobs, r) == RunJobs(t.jobs, r)
    && (forall j :: j in RunJobs(s.jobs, r) ==> SameResult(s.jobs[j], t.jobs[j]))
  }

  lemma SameRunSettled(s: Engine, t: Engine, r: RunId)
    requires SameRun(s, t, r)
    ensures AllTerminal(t.jobs, r) <==> AllTerminal(s.jobs, r)
    ensures Settled(t.runs, t.jobs, r) <==> Settled(s.runs, s.jobs, r)
  {
    assert Leaves(t.jobs, r) == Leaves(s.jobs, r);
    OutputsAgree(s.jobs, t.jobs, Leaves(s.jobs, r));
    assert SomeFailed(t.jobs, r) <==> SomeFailed(s.jobs, r);
  }

  // Between s and t run r was left alone, or settled if it has finished.
  ghost predicate Checked(s: Engine, t: Engine, r: RunId) {
    SameRun(s, t, r) || (AllTerminal(t.jobs, r) ==> Settled(t.runs, t.jobs, r))
  }

  ghost predicate AllChecked(s: Engine, t: Engine) {
    forall r :: Checked(s, t, r)
  }

  lemma SameRunTransitive(s: Engine, t: Engine, u: Engine, r: RunId)
    requires SameRun(s, t, r) && SameRun(t, u, r)
    ensures SameRun(s, u, r)
  {
    assert forall j :: j in RunJobs(s.jobs, r) ==> j in RunJobs(t.jobs, r);
  }

  lemma CheckedTransitive(s: Engine, t: Engine, u: Engine, r: RunId)
    requires Checked(s, t, r) && Checked(t, u, r)
    ensures Checked(s, u, r)
  {
    hide SameRun, AllTerminal, Settled;
    if SameRun(t, u, r) {
      SameRunSettled(t, u, r);
      if SameRun(s, t, r) {
        SameRunTransitive(s, t, u, r);
      }
    }
  }

  lemma AllCheckedTransitive(s: Engine, t: Engine, u: Engine)
    requires AllChecked(s, t) && AllChecked(t, u)
    ensures AllChecked(s, u)
  {
    hide Checked;
    forall r ensures Checked(s, u, r) {
      CheckedTransitive(s, t, u, r);
    }
  }

  lemma SameRecordsChecked(s: Engine, t: Engine)
    requires t.jobs == s.jobs && t.runs == s.runs
    ensures AllChecked(s, t)
  {
  }

  // A run with an unfinished job has no verdict to get wrong.
  lemma UnfinishedChecked(s: Engine, t: Engine, r: RunId, j: JobId)
    requires j in t.jobs && t.jobs[j].run == r && !Terminal(t.jobs[j].status)
    ensures Checked(s, t, r)
  {
    assert j in RunJobs(t.jobs, r);
  }

  // ---- Completion and failure of slot-holding jobs settle the verdict ----

  lemma CheckedVerdict(runs: Runs, jobs: Jobs, r: RunId)
    requires r in runs
    ensures AllTerminal(jobs, r) ==> Settled(CheckCompletion(runs, jobs, r), jobs, r)
  {
  }

  lemma FailChecked(s: Engine, j: JobId, note: Note)
    requires Inv(s) && j in s.active
    ensures AllChecked(s, MarkFailed(s, j, note))
  {
    hide AttemptsOk, DepsExact, RootsOk, QueueOk, CapOk, Settled, AllTerminal, Verdict, FinalOutputs;
    var t, r := MarkFailed(s, j, note), s.active[j];
    CheckedVerdict(s.runs, t.jobs, r);
    forall x ensures Checked(s, t, x) {
      if x != r { assert SameRun(s, t, x); }
    }
  }

  lemma CompleteChecked(s: Engine, c: Completion)
    requires Inv(s) && CompletionOk(s, c)
    ensures AllChecked(s, Complete(s, c))
  {
    hide AttemptsOk, DepsExact, RootsOk, QueueOk, CapOk, Settled, AllTerminal, Verdict, FinalOutputs, DepsDone;
    var t, r := Complete(s, c), s.active[c.job];
    CheckedVerdict(s.runs, t.jobs, r);
    forall x ensures Checked(s, t, x) {
      if x != r { assert SameRun(s, t, x); }
    }
  }

  // A verdict is given only when every job of the run has finished: until then
  // completing or failing jobs leaves the run's record alone.
  lemma VerdictOnlyWhenFinished(s: Engine, c: Completion, note: Note)
    requires Inv(s) && CompletionOk(s, c)
    ensures c.job in s.jobs && s.jobs[c.job].run in s.runs
    ensures var r, t := s.jobs[c.job].run, Complete(s, c);
      r in t.runs && (t.runs[r] != s.runs[r] ==>
        forall j :: j in t.jobs && t.jobs[j].run == r ==> t.jobs[j].status.Completed? || t.jobs[j].status.Failed?)
    ensures var r, t := s.jobs[c.job].run, MarkFailed(s, c.job, note);
      r in t.runs && (t.runs[r] != s.runs[r] ==>
        forall j :: j in t.jobs && t.jobs[j].run == r ==> t.jobs[j].status.Completed? || t.jobs[j].status.Failed?)
  {
    hide DepsExact, RootsOk, QueueOk, CapOk, Verdict, FinalOutputs, MarkFailed, MarkCompleted;
    var r := s.jobs[c.job].run;
    CompleteKeeps(s, c.job, c.outputs, c.promoted);
    FailKeeps(s, c.job, note);
    VerdictGiven(s, Complete(s, c), r) by { CompleteChecks(s, c); }
    VerdictGiven(s, MarkFailed(s, c.job, note), r) by { FailChecks(s, c.job, note); }
  }

  lemma VerdictGiven(s: Engine, t: Engine, r: RunId)
    requires AttemptsOk(t.jobs) && r in s.runs && t.runs == CheckCompletion(s.runs, t.jobs, r)
    ensures r in t.runs && (t.runs[r] != s.runs[r] ==>
      forall j :: j in t.jobs && t.jobs[j].run == r ==> t.jobs[j].status.Completed? || t.jobs[j].status.Failed?)
  {
    hide Verdict, FinalOutputs;
    forall j | AllTerminal(t.jobs, r) && j in t.jobs && t.jobs[j].run == r
      ensures t.jobs[j].status.Completed? || t.jobs[j].status.Failed?
    {
      assert j in RunJobs(t.jobs, r) && AttemptOk(t.jobs[j]);
    }
  }

  lemma CompleteChecks(s: Engine, c: Completion)
    requires SlotsOk(s.jobs, s.active) && CompletionOk(s, c)
    ensures Complete(s, c).runs == CheckCompletion(s.runs, Complete(s, c).jobs, s.jobs[c.job].run)
  {
  }

  lemma FailChecks(s: Engine, j: JobId, note: Note)
    requires SlotsOk(s.jobs, s.active) && j in s.active
    ensures MarkFailed(s, j, note).runs == CheckCompletion(s.runs, MarkFailed(s, j, note).jobs, s.jobs[j].run)
  {
  }

  lemma {:induction false} FailAllChecked(s: Engine, order: seq<JobId>, note: Note)
    requires Inv(s) && Distinct(order) && Elements(order) <= s.active.Keys
    ensures AllChecked(s, FailAll(s, order, note))
  {
    hide Inv, AllChecked, MarkFailed;
    if order == [] {
      SameRecordsChecked(s, s);
    } else {
      var n := |order| - 1;
      Last(order, n);
      FailAllChecked(s, order[..n], note);
      FailAllKeeps(s, order[..n], note);
      FailChecked(FailAll(s, order[..n], note), order[n], note);
      AllCheckedTransitive(s, FailAll(s, order[..n], note), FailAll(s, order, note));
    }
  }

  lemma {:induction false} SweepChecked(s: Engine, c: ChannelId, participants: seq<JobId>, swept: seq<Completion>)
    requires Inv(s) && SweepOk(s, c, participants, swept)
    ensures AllChecked(s, Sweep(s, swept))
    decreases |participants|
  {
    hide RecordsOk, QueueOk, CapOk, MarkCompleted, AllChecked;
    if participants == [] {
      SameRecordsChecked(s, s);
    } else {
      var rest, p := participants[..|participants| - 1], participants[|participants| - 1];
      if SweepOk(s, c, rest, swept) && !Finished(Sweep(s, swept), c, p) {
        SweepChecked(s, c, rest, swept);
      } else {
        var t, last := Sweep(s, swept[..|swept| - 1]), swept[|swept| - 1];
        SweepChecked(s, c, rest, swept[..|swept| - 1]);
        SweepKeeps(s, c, rest, swept[..|swept| - 1]);
        assert p in t.active;
        CompleteChecked(t, last);
        AllCheckedTransitive(s, t, Complete(t, last));
      }
    }
  }

  lemma RenotedChecked(t: Engine, again: set<JobId>, note: Note)
    ensures AllChecked(t, t.(jobs := Renoted(t.jobs, again, note)))
  {
    hide Settled, AllTerminal;
    var u := t.(jobs := Renoted(t.jobs, again, note));
    forall r ensures Checked(t, u, r) {
      assert RunJobs(u.jobs, r) == RunJobs(t.jobs, r);
      assert SameRun(t, u, r);
    }
  }

  lemma OnFailedChecked(s: Engine, j: JobId, note: Note, cs: seq<ChannelId>)
    requires Inv(s) && Enabled(s, JobFailed(j, note, cs))
    ensures AllChecked(s, OnFailed(s, j, note, cs))
  {
    hide RecordsOk, QueueOk, CapOk, AllChecked, FailAll, MarkFailed, FailPeers, KillsOk, Renoted;
    var kills, again := FailureShape(s, j, cs);
    var peer := Note.PeerFailed(j);
    var killed, u := FailAll(s, kills, peer), FailPeers(s, j, cs);
    var t := killed.(jobs := Renoted(killed.jobs, again, peer));
    FailAllKeeps(s, kills, peer);
    FailAllChecked(s, kills, peer);
    RenotedKeeps(killed, again, peer);
    RenotedChecked(killed, again, peer);
    SameScheduleInv(t, u);
    SameRecordsChecked(t, u);
    FailChecked(u, j, note);
    AllCheckedTransitive(s, killed, t);
    AllCheckedTransitive(s, t, u);
    AllCheckedTransitive(s, u, MarkFailed(u, j, note));
  }

  // ---- New jobs ----

  lemma ExtendedChecked(t: Engine, u: Engine, r: RunId, j: JobId)
    requires Extended(t.jobs, u.jobs, r) && u.runs == t.runs
    requires j in u.jobs && j !in t.jobs
    ensures AllChecked(t, u)
  {
    hide Settled, AllTerminal;
    UnfinishedChecked(t, u, r, j);
    forall x ensures Checked(t, u, x) {
      if x != r { assert SameRun(t, u, x); }
    }
  }

  lemma AcceptedChecked(t: Engine, r: RunId, j: JobId, outcome: Outcome)
    requires OutcomeOk(t, outcome) && j in t.jobs && t.jobs[j].role.Planner? && !Rejects(t, j, outcome)
    ensures AllChecked(t, AfterPlanner(t, r, j, outcome))
  {
    hide AllChecked, MarkFailed, MaterializePlan, JobOk, Extended;
    if outcome.PlanText? {
      MaterializeShape(t, r, j, outcome.plan, outcome.ids);
      assert outcome.ids[0] in outcome.ids;
      ExtendedChecked(t, AfterPlanner(t, r, j, outcome), r, outcome.ids[0]);
    } else {
      SameRecordsChecked(t, t);
    }
  }

  lemma AfterReviewerChecked(maxRevisions: nat, t: Engine, j: JobId, outcome: Outcome)
    requires OutcomeOk(t, outcome)
    requires RefsOk(t.runs, t.jobs) && j in t.jobs && t.jobs[j].role.Reviewer?
    ensures AllChecked(t, AfterReviewer(maxRevisions, t, j, outcome))
  {
    hide AllChecked, HandleReview, Extended;
    SameRecordsChecked(t, t);
    if outcome.Review? {
      var u := AfterReviewer(maxRevisions, t, j, outcome);
      ReviewShape(maxRevisions, t, j, outcome.decision, outcome.coder, outcome.reviewer);
      if u != t {
        assert outcome.coder in u.jobs;
        ExtendedChecked(t, u, t.jobs[j].run, outcome.coder);
      }
    }
  }

  // A rejection touches the planner and no other run.
  lemma RejectLeavesOthers(t: Engine, j: JobId, x: RunId)
    requires j in t.jobs && j !in t.active && x != t.jobs[j].run
    ensures SameRun(t, MarkFailed(t, j, PlanRejected), x)
  {
  }

  lemma OnCompletedChecked(maxRevisions: nat, s: Engine, c: Completion, outcome: Outcome, x: RunId)
    requires Inv(s) && CompletionOk(s, c) && OutcomeOk(s, outcome)
    requires Rejects(s, c.job, outcome) ==> x != s.jobs[c.job].run
    ensures Checked(s, OnCompleted(maxRevisions, s, c, outcome), x)
  {
    hide AttemptsOk, DepsExact, RootsOk, QueueOk, CapOk, Checked, Promotable, AfterReviewer, OutcomeOk,
         MarkCompleted, WellFormed, MaterializePlan;
    var t, u := Complete(s, c), OnCompleted(maxRevisions, s, c, outcome);
    CompleteChecked(s, c);
    CompletionKeeps(s, c);
    CompleteShape(s, c);
    OutcomeStaysOk(s, t, outcome);
    if s.jobs[c.job].role.Planner? {
      if Rejects(s, c.job, outcome) {
        assert c.job !in t.active;
        RejectLeavesOthers(t, c.job, x);
        SameIsChecked(t, u, x);
      } else {
        AcceptedChecked(t, s.jobs[c.job].run, c.job, outcome);
      }
      CheckedTransitive(s, t, u, x);
    } else if s.jobs[c.job].role.Reviewer? {
      AfterReviewerChecked(maxRevisions, t, c.job, outcome);
      CheckedTransitive(s, t, u, x);
    }
  }

  lemma SameIsChecked(s: Engine, t: Engine, r: RunId)
    requires SameRun(s, t, r)
    ensures Checked(s, t, r)
  {
  }

  // ---- The other steps ----

  lemma SpawnChecked(s: Engine, now: int)
    requires Inv(s)
    ensures AllChecked(s, Spawn(s, now))
  {
    hide Inv, Spawn, DepsDone, Settled, AllTerminal;
    SpawnShape(s, now);
    if Picked(s).Some? {
      StartedIsUnblocked(s, now);
      var t, j := Spawn(s, now), Picked(s).value;
      UnfinishedChecked(s, t, s.jobs[j].run, j);
      forall x ensures Checked(s, t, x) {
        if x != s.jobs[j].run { assert SameRun(s, t, x); }
      }
    } else {
      SameRecordsChecked(s, Spawn(s, now));
    }
  }

  lemma SubmitChecked(s: Engine, r: RunId, root: JobId, task: string)
    requires RefsOk(s.runs, s.jobs) && r !in s.runs && root !in s.jobs
    ensures AllChecked(s, Submit(s, r, root, task))
  {
    hide Settled, AllTerminal;
    var t := Submit(s, r, root, task);
    UnfinishedChecked(s, t, r, root);
    forall x ensures Checked(s, t, x) {
      if x != r { assert SameRun(s, t, x); }
    }
  }

  lemma CancelChecked(s: Engine, r: RunId, order: seq<JobId>, x: RunId)
    requires Inv(s) && Enabled(s, Cancel(r, order)) && Live(CancelRun(s, r, order).runs, x)
    ensures Checked(s, CancelRun(s, r, order), x)
  {
    hide RecordsOk, QueueOk, CapOk, AllTerminal, Settled, FailAll, Filter;
    if Undecided(s.runs, r) {
      CancelSpec(s, r, order);
      assert SameRun(s, CancelRun(s, r, order), x);
    } else {
      assert SameRun(s, s, x);
    }
  }

  lemma OnActionChecked(s: Engine, t: Engine, c: ChannelId, action: Channels.Action, swept: seq<Completion>)
    requires Inv(s) && t == s.(channels := t.channels) && ActionOk(t, c, action, swept)
    ensures AllChecked(s, OnAction(t, action, swept))
  {
    hide Inv, AllChecked;
    SameScheduleInv(s, t);
    SameRecordsChecked(s, t);
    if action.Close? && c in t.channels {
      SweepChecked(t, c, t.channels[c].participants, swept);
      AllCheckedTransitive(s, t, Sweep(t, swept));
    } else if action.Close? {
      assert Sweep(t, []) == t;
    }
  }

  // ---- A rejection ----

  // Every other job of the run has finished, and none has failed.
  ghost predicate OthersDone(jobs: Jobs, r: RunId, j: JobId) {
    forall k :: k in RunJobs(jobs, r) && k != j ==> Terminal(jobs[k].status) && !jobs[k].status.Failed?
  }

  ghost predicate OthersTerminal(jobs: Jobs, r: RunId, j: JobId) {
    forall k :: k in RunJobs(jobs, r) && k != j ==> Terminal(jobs[k].status)
  }

  // Rejecting a plan leaves its run finished with the wrong verdict exactly
  // when the planner has no attempts left and everything else in the run has
  // finished without a failure. The run then says Completed though a job Failed.
  lemma RejectedPlanVerdictIff(s: Engine, c: Completion)
    requires Inv(s) && CompletionOk(s, c) && c.job in s.jobs && s.jobs[c.job].role.Planner?
    ensures var u, r := MarkFailed(Complete(s, c), c.job, PlanRejected), s.jobs[c.job].run;
      (AllTerminal(u.jobs, r) && !Settled(u.runs, u.jobs, r))
      <==> s.jobs[c.job].attempt == s.jobs[c.job].maxAttempts && OthersDone(s.jobs, r, c.job)
  {
    hide RefsOk, DepsExact, RootsOk, QueueOk, CapOk, MarkCompleted, MarkFailed, AllTerminal, Settled, OthersDone, FinalOutputs;
    var t, b := Complete(s, c), s.jobs[c.job];
    var u, r := MarkFailed(t, c.job, PlanRejected), b.run;
    CompleteSpec(s, c);
    assert AttemptOk(b);
    RejectedJobs(s, c);
    if b.attempt == b.maxAttempts && OthersTerminal(s.jobs, r, c.job) {
      AllTerminalAfterReject(s.jobs, t.jobs, u.jobs, c);
      RejectedRecord(s, c);
      SettledAfterReject(t.runs, s.jobs, t.jobs, u.jobs, c);
    } else {
      NotTerminalAfterReject(s.jobs, t.jobs, u.jobs, c);
    }
  }

  lemma RejectedJobs(s: Engine, c: Completion)
    requires Inv(s) && CompletionOk(s, c)
    ensures var t := Complete(s, c);
      var u := MarkFailed(t, c.job, PlanRejected);
      c.job in t.jobs && u.jobs == t.jobs[c.job := Failing(t.jobs[c.job], PlanRejected)] && u.runs == t.runs
  {
  }

  lemma RejectedRecord(s: Engine, c: Completion)
    requires Inv(s) && CompletionOk(s, c) && AllTerminal(Complete(s, c).jobs, s.jobs[c.job].run)
    ensures Settled(Complete(s, c).runs, Complete(s, c).jobs, s.jobs[c.job].run)
  {
  }

  lemma AllTerminalAfterReject(jobs: Jobs, t: Jobs, u: Jobs, c: Completion)
    requires CompletedAt(jobs, t, c) && u == t[c.job := Failing(t[c.job], PlanRejected)]
    requires u[c.job].status.Failed? && OthersTerminal(jobs, jobs[c.job].run, c.job)
    ensures AllTerminal(t, jobs[c.job].run) && AllTerminal(u, jobs[c.job].run)
  {
    var r := jobs[c.job].run;
    assert c.job in RunJobs(t, r) && c.job in RunJobs(u, r);
    forall k | k in RunJobs(t, r) ensures Terminal(t[k].status) && Terminal(u[k].status) {
      assert k != c.job ==> k in RunJobs(jobs, r);
    }
  }

  lemma NotTerminalAfterReject(jobs: Jobs, t: Jobs, u: Jobs, c: Completion)
    requires CompletedAt(jobs, t, c) && u == t[c.job := Failing(t[c.job], PlanRejected)]
    requires u[c.job].status.Ready? || !OthersTerminal(jobs, jobs[c.job].run, c.job)
    ensures !AllTerminal(u, jobs[c.job].run)
    ensures u[c.job].status.Failed? ==> !OthersDone(jobs, jobs[c.job].run, c.job)
  {
    var r := jobs[c.job].run;
    if u[c.job].status.Ready? {
      assert c.job in RunJobs(u, r);
    } else {
      var k :| k in RunJobs(jobs, r) && k != c.job && !Terminal(jobs[k].status);
      assert k in RunJobs(u, r);
    }
  }

  lemma SameLeaves(t: Jobs, j: JobId, b: Job, r: RunId)
    requires j in t && b.run == t[j].run && b.deps == t[j].deps && b.outputs == t[j].outputs
    ensures RunJobs(t[j := b], r) == RunJobs(t, r) && FinalOutputs(t[j := b], r) == FinalOutputs(t, r)
  {
    assert RunJobs(t[j := b], r) == RunJobs(t, r);
    assert Leaves(t[j := b], r) == Leaves(t, r);
    OutputsAgree(t, t[j := b], Leaves(t, r));
  }

  lemma SettledAfterReject(runs: Runs, jobs: Jobs, t: Jobs, u: Jobs, c: Completion)
    requires CompletedAt(jobs, t, c) && u == t[c.job := Failing(t[c.job], PlanRejected)]
    requires u[c.job].status.Failed? && Settled(runs, t, jobs[c.job].run)
    requires OthersTerminal(jobs, jobs[c.job].run, c.job)
    ensures !Settled(runs, u, jobs[c.job].run) <==> OthersDone(jobs, jobs[c.job].run, c.job)
  {
    hide Outputs, Leaves;
    var r := jobs[c.job].run;
    SameLeaves(t, c.job, u[c.job], r);
    assert c.job in RunJobs(u, r) && SomeFailed(u, r);
    if !OthersDone(jobs, r, c.job) {
      var k :| k in RunJobs(jobs, r) && k != c.job && jobs[k].status.Failed?;
      assert k in RunJobs(t, r) && SomeFailed(t, r);
    }
  }

  // ---- A restart ----

  // Everything unfinished in the run was running, on its last attempt.
  ghost predicate LostForGood(jobs: Jobs, r: RunId) {
    forall j :: j in Unfinished(jobs, r) ==> jobs[j].status.Running? && jobs[j].attempt >= jobs[j].maxAttempts
  }

  ghost predicate SomeRunning(jobs: Jobs, r: RunId) {
    exists j :: j in RunJobs(jobs, r) && jobs[j].status.Running?
  }

  // The run happens to say already what it should say after the loss.
  ghost predicate SaysFailed(runs: Runs, jobs: Jobs, r: RunId) {
    r in runs && runs[r].status.Failed? && runs[r].finals == Artifacts(FinalOutputs(jobs, r))
  }

  lemma RestartFinishes(jobs: Jobs, r: RunId)
    requires SomeRunning(jobs, r)
    ensures AllTerminal(RestartedJobs(jobs), r) <==> LostForGood(jobs, r)
  {
    var t := RestartedJobs(jobs);
    assert RunJobs(t, r) == RunJobs(jobs, r);
    forall j | j in RunJobs(jobs, r)
      ensures Terminal(t[j].status) <==>
        (Terminal(jobs[j].status) || (jobs[j].status.Running? && jobs[j].attempt >= jobs[j].maxAttempts))
    {
      RecoveredIs(jobs, j);
    }
    if AllTerminal(t, r) {
      forall j | j in Unfinished(jobs, r) ensures jobs[j].status.Running? && jobs[j].attempt >= jobs[j].maxAttempts {
        assert j in RunJobs(t, r);
      }
    }
    if LostForGood(jobs, r) {
      forall j | j in RunJobs(t, r) ensures Terminal(t[j].status) {
        assert j in RunJobs(jobs, r);
      }
    }
  }

  lemma RestartVerdict(runs: Runs, jobs: Jobs, r: RunId)
    requires SomeRunning(jobs, r) && LostForGood(jobs, r)
    ensures Settled(runs, RestartedJobs(jobs), r) <==> SaysFailed(runs, jobs, r)
  {
    var t := RestartedJobs(jobs);
    var j :| j in RunJobs(jobs, r) && jobs[j].status.Running?;
    assert j in Unfinished(jobs, r) && j in RunJobs(t, r) && t[j].status.Failed?;
    assert RunJobs(t, r) == RunJobs(jobs, r) && Leaves(t, r) == Leaves(jobs, r);
    OutputsAgree(jobs, t, Leaves(jobs, r));
  }

  // A restart that finds a job of the run Running leaves the run finished with a
  // wrong verdict exactly when everything unfinished in it was Running on its
  // last attempt and the run does not say Failed, with the right artifacts,
  // already. A run still being planned is then left Running with nothing to
  // run, and one that was planned is left Completed though a job Failed.
  lemma RestartVerdictIff(stored: Records, cap: nat, queue: seq<JobId>, r: RunId)
    requires SomeRunning(stored.jobs, r)
    ensures var t := Restarted(stored, cap, queue);
      (AllTerminal(t.jobs, r) && !Settled(t.runs, t.jobs, r))
      <==> LostForGood(stored.jobs, r) && !SaysFailed(stored.runs, stored.jobs, r)
  {
    hide AllTerminal, Settled, LostForGood, SaysFailed, SomeRunning;
    RestartFinishes(stored.jobs, r);
    if LostForGood(stored.jobs, r) {
      RestartVerdict(stored.runs, stored.jobs, r);
    }
  }

  // A run in which nothing was Running is left alone by a restart, or has a
  // job that is to be done again.
  lemma RestartChecked(s: Engine, stored: Records, queue: seq<JobId>, r: RunId)
    requires Behind(stored, s) && !SomeRunning(stored.jobs, r)
    ensures Checked(s, Restarted(stored, s.cap, queue), r)
  {
    hide AllTerminal, Settled;
    var t := Restarted(stored, s.cap, queue);
    forall j | j in RunJobs(stored.jobs, r) ensures t.jobs[j] == stored.jobs[j] {
      RecoveredIs(stored.jobs, j);
    }
    if j :| j in s.jobs && s.jobs[j].run == r && StartLost(stored.jobs[j], s.jobs[j]) {
      assert j in RunJobs(stored.jobs, r);
      UnfinishedChecked(s, t, r, j);
    } else {
      SameAfterRestart(s, stored, queue, r);
    }
  }

  lemma SameAfterRestart(s: Engine, stored: Records, queue: seq<JobId>, r: RunId)
    requires Behind(stored, s) && !SomeRunning(stored.jobs, r)
    requires forall j :: j in s.jobs && s.jobs[j].run == r ==> !StartLost(stored.jobs[j], s.jobs[j])
    ensures SameRun(s, Restarted(stored, s.cap, queue), r)
  {
    var t := Restarted(stored, s.cap, queue);
    forall j | j in s.jobs ensures t.jobs[j].run == s.jobs[j].run {
      RecoveredIs(stored.jobs, j);
    }
    forall j | j in RunJobs(s.jobs, r) ensures t.jobs[j] == s.jobs[j] {
      assert stored.jobs[j] == s.jobs[j] && j in RunJobs(stored.jobs, r);
      RecoveredIs(stored.jobs, j);
    }
  }

  // A planner lost for the last time leaves its run open: the status is still
  // Running or Pending, all its jobs are finished, and one Failed.
  lemma LostPlannerLeavesRunOpen(stored: Records, cap: nat, queue: seq<JobId>, r: RunId)
    requires RootsOk(stored.runs, stored.jobs) && Undecided(stored.runs, r)
    requires SomeRunning(stored.jobs, r) && LostForGood(stored.jobs, r)
    ensures var t := Restarted(stored, cap, queue);
      AllTerminal(t.jobs, r) && SomeFailed(t.jobs, r) && Undecided(t.runs, r) && RunJobs(t.jobs, r) == {stored.runs[r].root}
  {
    hide AllTerminal, LostForGood;
    var t := Restarted(stored, cap, queue);
    RestartFinishes(stored.jobs, r);
    var j :| j in RunJobs(stored.jobs, r) && stored.jobs[j].status.Running?;
    LostJobFails(stored.jobs, r, j);
    assert RunJobs(t.jobs, r) == RunJobs(stored.jobs, r);
    assert j == stored.runs[r].root && j in RunJobs(t.jobs, r);
  }

  lemma LostJobFails(jobs: Jobs, r: RunId, j: JobId)
    requires j in RunJobs(jobs, r) && jobs[j].status.Running? && LostForGood(jobs, r)
    ensures RestartedJobs(jobs)[j].status.Failed?
  {
    assert j in Unfinished(jobs, r);
  }

  // ---- Whole runs ----

  // The two ways an event can leave a run finished with a wrong verdict.
  ghost predicate Unsettles(s: Engine, e: Event, r: RunId) {
    || (&& e.JobCompleted? && Rejects(s, e.done.job, e.outcome) && s.jobs[e.done.job].run == r
        && s.jobs[e.done.job].attempt == s.jobs[e.done.job].maxAttempts && OthersDone(s.jobs, r, e.done.job))
    || (&& e.Restart? && SomeRunning(e.stored.jobs, r)
        && LostForGood(e.stored.jobs, r) && !SaysFailed(e.stored.runs, e.stored.jobs, r))
  }

  // An event that touches a live run leaves it finished and unsettled exactly
  // in these two ways.
  lemma StepVerdictIff(maxRevisions: nat, s: Engine, e: Event, r: RunId)
    requires Inv(s) && Enabled(s, e)
    requires Live(Step(maxRevisions, s, e).runs, r) && !SameRun(s, Step(maxRevisions, s, e), r)
    ensures var t := Step(maxRevisions, s, e);
      (AllTerminal(t.jobs, r) && !Settled(t.runs, t.jobs, r)) <==> Unsettles(s, e, r)
  {
    hide Inv, SameRun, AllTerminal, Settled, OthersDone, SomeRunning, LostForGood, SaysFailed, Behind, Restarted,
         OnCompleted, OnFailed, OnAction, CancelRun, Spawn, NobodyStarted;
    if e.JobCompleted? && Rejects(s, e.done.job, e.outcome) && s.jobs[e.done.job].run == r {
      RejectedPlanVerdictIff(s, e.done);
      RejectionIs(maxRevisions, s, e.done, e.outcome);
    } else if e.Restart? && SomeRunning(e.stored.jobs, r) {
      RestartVerdictIff(e.stored, s.cap, e.queue, r);
    } else {
      StepChecked(maxRevisions, s, e, r);
    }
  }

  lemma RejectionIs(maxRevisions: nat, s: Engine, c: Completion, outcome: Outcome)
    requires Rejects(s, c.job, outcome)
    ensures OnCompleted(maxRevisions, s, c, outcome) == MarkFailed(Complete(s, c), c.job, PlanRejected)
  {
    hide Complete, MarkFailed, WellFormed;
  }

  lemma StepChecked(maxRevisions: nat, s: Engine, e: Event, r: RunId)
    requires Inv(s) && Enabled(s, e) && Live(Step(maxRevisions, s, e).runs, r)
    requires e.JobCompleted? && Rejects(s, e.done.job, e.outcome) ==> s.jobs[e.done.job].run != r
    requires e.Restart? ==> !SomeRunning(e.stored.jobs, r)
    ensures Checked(s, Step(maxRevisions, s, e), r)
  {
    hide RecordsOk, QueueOk, SlotsOk, CapOk, Checked, OnCompleted, OnFailed, OnAction, CancelRun, Spawn, Restarted,
         Behind, CompletionOk, OutcomeOk, Rejects, NobodyStarted, SomeRunning;
    match e
    case SubmitRun(x, root, task) => RefsFromInv(s); SubmitChecked(s, x, root, task);
    case SpawnJob(now) => SpawnChecked(s, now);
    case Heartbeat(j, now) => SameRecordsChecked(s, RecordHeartbeat(s, j, now));
    case JobCompleted(c, outcome) => OnCompletedChecked(maxRevisions, s, c, outcome, r);
    case JobFailed(j, note, cs) => OnFailedChecked(s, j, note, cs);
    case MessageFrom(c, sender, content, swept) =>
      var (t, action) := RouteMessage(s, c, sender, content);
      OnActionChecked(s, t, c, action, swept);
    case DoneFrom(c, sender, swept) =>
      var (t, action) := ChannelDone(s, c, sender);
      OnActionChecked(s, t, c, action, swept);
    case ActivateReady => SameRecordsChecked(s, ActivateChannels(s));
    case Cancel(x, order) => CancelChecked(s, x, order, r);
    case Restart(stored, queue) => RestartChecked(s, stored, queue, r);
  }

  lemma RefsFromInv(s: Engine)
    requires Inv(s)
    ensures RefsOk(s.runs, s.jobs)
  {
  }

  // The last event that touched run r was one of the two.
  ghost predicate Spoilt(maxRevisions: nat, s: Engine, history: seq<Event>, r: RunId) {
    && history != []
    && var n := |history| - 1;
       if SameRun(Execute(maxRevisions, s, history[..n]), Execute(maxRevisions, s, history), r)
       then Spoilt(maxRevisions, s, history[..n], r)
       else Unsettles(Execute(maxRevisions, s, history[..n]), history[n], r)
  }

  // The verdict, exactly: over any history, a run that was not cancelled and
  // whose jobs are all finished is Failed if a job Failed and Completed
  // otherwise, with the outputs of the jobs nothing waits for, unless the last
  // event that touched it was a rejection or a restart of the kind above; and
  // then it is not.
  lemma {:induction false} RunVerdict(maxRevisions: nat, cap: nat, history: seq<Event>, r: RunId)
    requires Legal(maxRevisions, Init(cap), history)
    ensures var t := Execute(maxRevisions, Init(cap), history);
      Live(t.runs, r) && AllTerminal(t.jobs, r) ==>
        (Settled(t.runs, t.jobs, r) <==> !Spoilt(maxRevisions, Init(cap), history, r))
  {
    hide Inv, Step, Enabled, SameRun, AllTerminal, Settled, Unsettles;
    if history != [] {
      var n := |history| - 1;
      var s, t := Execute(maxRevisions, Init(cap), history[..n]), Execute(maxRevisions, Init(cap), history);
      RunVerdict(maxRevisions, cap, history[..n], r);
      InitInv(cap);
      ExecuteKeepsInv(maxRevisions, Init(cap), history[..n]);
      if Live(t.runs, r) {
        if SameRun(s, t, r) {
          SameRunSettled(s, t, r);
          SameRunLive(s, t, r);
        } else {
          StepVerdictIff(maxRevisions, s, history[n], r);
        }
      }
    }
  }

  // Spelled out: the run is Failed exactly if one of its jobs is, and artifact a
  // is among its final artifacts as often as the jobs that no other waits for
  // have produced it, taken together.
  lemma FinalArtifacts(maxRevisions: nat, cap: nat, history: seq<Event>, r: RunId, a: ArtifactId)
    requires Legal(maxRevisions, Init(cap), history) && !Spoilt(maxRevisions, Init(cap), history, r)
    requires var t := Execute(maxRevisions, Init(cap), history);
      && r in t.runs && !t.runs[r].status.Cancelled? && (exists j :: j in t.jobs && t.jobs[j].run == r)
      && forall j :: j in t.jobs && t.jobs[j].run == r ==> t.jobs[j].status.Completed? || t.jobs[j].status.Failed?
    ensures var t := Execute(maxRevisions, Init(cap), history);
      && t.runs[r].status == (if exists j :: j in t.jobs && t.jobs[j].run == r && t.jobs[j].status.Failed?
                              then RunStatus.Failed else RunStatus.Completed)
      && t.runs[r].finals.bag[a] == Sum(Contributions(t.jobs, r, a))
  {
    hide Legal, Execute, Spoilt, Contributions;
    var t := Execute(maxRevisions, Init(cap), history);
    RunVerdict(maxRevisions, cap, history, r);
    FinishedIsTerminal(t.jobs, r);
    FinalOutputsCount(t.jobs, r, a);
    FailedIsFailed(t.jobs, r);
  }

  lemma FinishedIsTerminal(jobs: Jobs, r: RunId)
    requires exists j :: j in jobs && jobs[j].run == r
    requires forall j :: j in jobs && jobs[j].run == r ==> jobs[j].status.Completed? || jobs[j].status.Failed?
    ensures AllTerminal(jobs, r)
  {
    var j :| j in jobs && jobs[j].run == r;
    assert j in RunJobs(jobs, r);
  }

  lemma FailedIsFailed(jobs: Jobs, r: RunId)
    ensures SomeFailed(jobs, r) <==> exists j :: j in jobs && jobs[j].run == r && jobs[j].status.Failed?
  {
    if j :| j in jobs && jobs[j].run == r && jobs[j].status.Failed? {
      assert j in RunJobs(jobs, r);
    }
  }

  // So what only jobs that others wait for have produced is not among them, and
  // what a job nothing waits for has produced is.
  lemma ArtifactIsFinalIff(maxRevisions: nat, cap: nat, history: seq<Event>, r: RunId, a: ArtifactId)
    requires Legal(maxRevisions, Init(cap), history) && !Spoilt(maxRevisions, Init(cap), history, r)
    requires var t := Execute(maxRevisions, Init(cap), history);
      && r in t.runs && !t.runs[r].status.Cancelled? && (exists j :: j in t.jobs && t.jobs[j].run == r)
      && forall j :: j in t.jobs && t.jobs[j].run == r ==> t.jobs[j].status.Completed? || t.jobs[j].status.Failed?
    ensures var t := Execute(maxRevisions, Init(cap), history);
      a in t.runs[r].finals.bag <==>
        exists j :: j in t.jobs && t.jobs[j].run == r && a in t.jobs[j].outputs
                    && forall k :: k in t.jobs && t.jobs[k].run == r ==> j !in t.jobs[k].deps
  {
    hide Legal, Execute, Spoilt, Sum;
    var t := Execute(maxRevisions, Init(cap), history);
    FinalArtifacts(maxRevisions, cap, history, r, a);
    ContributedIff(t.jobs, r, a);
  }

  lemma ContributedIff(jobs: Jobs, r: RunId, a: ArtifactId)
    ensures Sum(Contributions(jobs, r, a)) > 0 <==>
      exists j :: j in jobs && jobs[j].run == r && a in jobs[j].outputs
                  && forall k :: k in jobs && jobs[k].run == r ==> j !in jobs[k].deps
  {
    var f := Contributions(jobs, r, a);
    if j :| j in jobs && jobs[j].run == r && a in jobs[j].outputs
            && forall k :: k in jobs && jobs[k].run == r ==> j !in jobs[k].deps {
      SumWithout(f, j);
    } else {
      SumOfZeros(f);
    }
  }

  lemma SameRunLive(s: Engine, t: Engine, r: RunId)
    requires SameRun(s, t, r)
    ensures Live(t.runs, r) <==> Live(s.runs, r)
  {
  }
}
