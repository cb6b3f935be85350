/** What no step of the daemon ever undoes. */
module DaemonFrame {
  import opened Types
  import opened Collections
  import opened Planner
  import opened Materialization
  import opened EngineSpec
  import opened EngineInv
  import opened EngineLife
  import opened Failures
  import opened Daemon
  import Channels

  // Jobs stay, with what they were created with; Completed and Failed are final.
  ghost predicate JobEvolves(b: Job, c: Job) {
    && Touched(b, c) && c.maxAttempts == b.maxAttempts && c.round == b.round && c.instruction == b.instruction
    && c.profile == b.profile && c.inputs == b.inputs && c.parent == b.parent
    && (b.status.Completed? ==> c == b)
    && (b.status.Failed? ==> c.status.Failed?)
  }

  ghost predicate JobsEvolve(jobs: Jobs, t: Jobs) {
    jobs.Keys <= t.Keys && forall j :: j in jobs ==> JobEvolves(jobs[j], t[j])
  }

  // Runs stay; no run is undecided again once it has been decided or cancelled;
  // only an undecided run is cancelled.
  ghost predicate RunsEvolve(a: Runs, b: Runs) {
    && a.Keys <= b.Keys
    && (forall r :: r in a ==>
          && a[r].root == b[r].root && a[r].task == b[r].task
          && (b[r].status.Cancelled? ==> a[r].status.Cancelled? || Undecided(a, r))
          && (Undecided(b, r) ==> Undecided(a, r)))
  }

  ghost predicate Evolves(s: Engine, t: Engine) {
    t.cap == s.cap && RunsEvolve(s.runs, t.runs) && JobsEvolve(s.jobs, t.jobs)
  }

  lemma EvolvesReflexive(s: Engine)
    ensures Evolves(s, s)
  {
  }

  lemma EvolvesTransitive(s: Engine, t: Engine, u: Engine)
    requires Evolves(s, t) && Evolves(t, u)
    ensures Evolves(s, u)
  {
    forall j | j in s.jobs ensures JobEvolves(s.jobs[j], u.jobs[j]) {
      assert j in t.jobs;
    }
  }

  // One job that was Running, and nothing else but its run's verdict, changes.
  lemma OneJobEvolves(s: Engine, t: Engine, j: JobId)
    requires j in s.jobs && s.jobs[j].status.Running?
    requires t.cap == s.cap && Advances(s.runs, t.runs)
    requires j in t.jobs && t.jobs == s.jobs[j := t.jobs[j]] && JobEvolves(s.jobs[j], t.jobs[j])
    ensures Evolves(s, t)
  {
  }

  lemma FailEvolves(s: Engine, j: JobId, note: Note)
    requires Inv(s) && j in s.active
    ensures Evolves(s, MarkFailed(s, j, note))
  {
    FailKeeps(s, j, note);
    OneJobEvolves(s, MarkFailed(s, j, note), j);
  }

  lemma {:induction false} FailAllEvolves(s: Engine, order: seq<JobId>, note: Note)
    requires Inv(s) && Distinct(order) && Elements(order) <= s.active.Keys
    ensures Evolves(s, FailAll(s, order, note))
  {
    if order != [] {
      var n := |order| - 1;
      Last(order, n);
      FailAllEvolves(s, order[..n], note);
      FailAllKeeps(s, order[..n], note);
      var t := FailAll(s, order[..n], note);
      FailEvolves(t, order[n], note);
      EvolvesTransitive(s, t, MarkFailed(t, order[n], note));
    }
  }

  // Completing a job changes it and the jobs it unblocks, which were Pending.
  ghost predicate CompletedAt(jobs: Jobs, t: Jobs, c: Completion) {
    && t.Keys == jobs.Keys && c.job in jobs
    && t[c.job] == jobs[c.job].(status := JobStatus.Completed, outputs := c.outputs)
    && (forall j :: j in jobs && j != c.job ==>
          t[j] == (if j in c.promoted then jobs[j].(status := JobStatus.Ready) else jobs[j]))
    && (forall j :: j in c.promoted ==>
          j in jobs && j != c.job && jobs[j].status.Pending? && jobs[j].run == jobs[c.job].run)
  }

  lemma CompleteSpec(s: Engine, c: Completion)
    requires SlotsOk(s.jobs, s.active) && CompletionOk(s, c)
    ensures CompletedAt(s.jobs, Complete(s, c).jobs, c)
  {
  }

  lemma CompletedJobsEvolve(jobs: Jobs, t: Jobs, c: Completion)
    requires CompletedAt(jobs, t, c) && jobs[c.job].status.Running?
    ensures JobsEvolve(jobs, t)
    ensures JobEvolves(jobs[c.job], Failing(t[c.job], PlanRejected))
  {
  }

  lemma CompleteEvolves(s: Engine, c: Completion)
    requires Inv(s) && CompletionOk(s, c)
    ensures Evolves(s, Complete(s, c))
  {
    CompleteKeeps(s, c.job, c.outputs, c.promoted);
    CompleteSpec(s, c);
    assert s.jobs[c.job].status.Running?;
    CompletedJobsEvolve(s.jobs, Complete(s, c).jobs, c);
  }

  lemma {:induction false} SweepEvolves(s: Engine, c: ChannelId, participants: seq<JobId>, swept: seq<Completion>)
    requires Inv(s) && SweepOk(s, c, participants, swept)
    ensures Evolves(s, Sweep(s, swept))
    decreases |participants|
  {
    if participants != [] {
      var rest, p := participants[..|participants| - 1], participants[|participants| - 1];
      if SweepOk(s, c, rest, swept) && !Finished(Sweep(s, swept), c, p) {
        SweepEvolves(s, c, rest, swept);
      } else {
        var t, last := Sweep(s, swept[..|swept| - 1]), swept[|swept| - 1];
        SweepEvolves(s, c, rest, swept[..|swept| - 1]);
        SweepKeeps(s, c, rest, swept[..|swept| - 1]);
        assert p in t.active;
        CompleteEvolves(t, last);
        EvolvesTransitive(s, t, Complete(t, last));
      }
    }
  }

  lemma ExtendedEvolves(s: Engine, t: Engine, r: RunId)
    requires Extended(s.jobs, t.jobs, r) && t.runs == s.runs && t.cap == s.cap
    ensures Evolves(s, t)
  {
  }

  lemma OneMoreEvolves(s: Engine, t: Engine, u: Engine, j: JobId)
    requires Evolves(s, t) && u.cap == t.cap && u.runs == t.runs
    requires j in s.jobs && j in t.jobs
    requires j in u.jobs && u.jobs == t.jobs[j := u.jobs[j]] && JobEvolves(s.jobs[j], u.jobs[j])
    ensures Evolves(s, u)
  {
  }

  // The planner that is failed again after it was marked completed was Running
  // when the event came in.
  lemma RejectEvolves(s: Engine, c: Completion)
    requires Inv(s) && CompletionOk(s, c)
    ensures Evolves(s, MarkFailed(Complete(s, c), c.job, PlanRejected))
  {
    var t := Complete(s, c);
    CompleteEvolves(s, c);
    CompleteSpec(s, c);
    assert s.jobs[c.job].status.Running?;
    CompletedJobsEvolve(s.jobs, t.jobs, c);
    assert c.job !in t.active;
    OneMoreEvolves(s, t, MarkFailed(t, c.job, PlanRejected), c.job);
  }

  lemma AfterPlannerEvolves(t: Engine, r: RunId, j: JobId, outcome: Outcome)
    requires OutcomeOk(t, outcome)
    requires !outcome.BadText? && (outcome.PlanText? ==> WellFormed(outcome.plan))
    ensures Evolves(t, AfterPlanner(t, r, j, outcome))
  {
    if outcome.PlanText? {
      MaterializeShape(t, r, j, outcome.plan, outcome.ids);
      ExtendedEvolves(t, AfterPlanner(t, r, j, outcome), r);
    }
  }

  lemma AfterReviewerEvolves(maxRevisions: nat, t: Engine, j: JobId, outcome: Outcome)
    requires OutcomeOk(t, outcome) && RefsOk(t.runs, t.jobs) && j in t.jobs && t.jobs[j].role.Reviewer?
    ensures Evolves(t, AfterReviewer(maxRevisions, t, j, outcome))
  {
    if outcome.Review? {
      var u := AfterReviewer(maxRevisions, t, j, outcome);
      ReviewShape(maxRevisions, t, j, outcome.decision, outcome.coder, outcome.reviewer);
      if u != t {
        ExtendedEvolves(t, u, t.jobs[j].run);
      }
    }
  }

  lemma OnCompletedEvolves(maxRevisions: nat, s: Engine, c: Completion, outcome: Outcome)
    requires Inv(s) && CompletionOk(s, c) && OutcomeOk(s, outcome)
    ensures Evolves(s, OnCompleted(maxRevisions, s, c, outcome))
  {
    hide Evolves, RefsOk, DepsExact, QueueOk, SlotsOk, CapOk, MarkCompleted, AfterReviewer, Promotable;
    var t := Complete(s, c);
    CompleteEvolves(s, c);
    CompleteKeeps(s, c.job, c.outputs, c.promoted);
    CompleteShape(s, c);
    var r := s.jobs[c.job].run;
    OutcomeStaysOk(s, t, outcome);
    if s.jobs[c.job].role.Planner? {
      if outcome.BadText? || (outcome.PlanText? && !WellFormed(outcome.plan)) {
        RejectEvolves(s, c);
      } else {
        AfterPlannerEvolves(t, r, c.job, outcome);
        EvolvesTransitive(s, t, AfterPlanner(t, r, c.job, outcome));
      }
    } else if s.jobs[c.job].role.Reviewer? {
      AfterReviewerEvolves(maxRevisions, t, c.job, outcome);
      EvolvesTransitive(s, t, AfterReviewer(maxRevisions, t, c.job, outcome));
    }
  }

  lemma RenotedEvolves(s: Engine, t: Engine, again: set<JobId>, note: Note)
    requires Evolves(s, t) && forall k :: k in again ==> Lost(s, k)
    ensures Evolves(s, t.(jobs := Renoted(t.jobs, again, note)))
  {
  }

  lemma OnFailedEvolves(s: Engine, j: JobId, note: Note, cs: seq<ChannelId>)
    requires Inv(s) && Enabled(s, JobFailed(j, note, cs))
    ensures Evolves(s, OnFailed(s, j, note, cs))
  {
    hide RecordsOk, QueueOk, CapOk, FailAll, FailPeers, MarkFailed, KillsOk, Evolves, Renoted;
    var kills, again := FailureShape(s, j, cs);
    var killed := FailAll(s, kills, Note.PeerFailed(j));
    var t, u := killed.(jobs := Renoted(killed.jobs, again, Note.PeerFailed(j))), FailPeers(s, j, cs);
    FailAllKeeps(s, kills, Note.PeerFailed(j));
    FailAllEvolves(s, kills, Note.PeerFailed(j));
    RenotedKeeps(killed, again, Note.PeerFailed(j));
    RenotedEvolves(s, killed, again, Note.PeerFailed(j));
    SameScheduleInv(t, u);
    FailEvolves(u, j, note);
    SameRecordsEvolve(s, t, u);
    EvolvesTransitive(s, u, MarkFailed(u, j, note));
  }

  lemma SameRecordsEvolve(s: Engine, t: Engine, u: Engine)
    requires Evolves(s, t) && u == t.(channels := u.channels)
    ensures Evolves(s, u)
  {
  }

  lemma SpawnEvolves(s: Engine, now: int)
    requires Inv(s)
    ensures Evolves(s, Spawn(s, now))
  {
    SpawnShape(s, now);
    if |s.active| < s.cap && s.queue != [] {
      assert s.queue[0] in s.queue;
      StartRunAdvances(s.runs, s.jobs[s.queue[0]].run);
      StartEvolves(s, s.queue[0], now);
    }
  }

  lemma StartEvolves(s: Engine, j: JobId, now: int)
    requires s.queue != [] && j in s.jobs && s.jobs[j].status.Ready?
    ensures Evolves(s, Started(s, j, now))
  {
  }

  lemma CancelledJobsEvolve(jobs: Jobs, r: RunId, note: Note)
    ensures JobsEvolve(jobs, FailedJobs(jobs, Unfinished(jobs, r), note))
  {
  }

  lemma CancelEvolves(s: Engine, r: RunId, order: seq<JobId>)
    requires Inv(s) && Enabled(s, Cancel(r, order))
    ensures Evolves(s, CancelRun(s, r, order))
  {
    hide RecordsOk, QueueOk, CapOk, FailAll, FailedJobs;
    if Undecided(s.runs, r) {
      CancelSpec(s, r, order);
      CancelledJobsEvolve(s.jobs, r, CancelledByUser);
    } else {
      EvolvesReflexive(s);
    }
  }

  lemma RestartEvolves(s: Engine, stored: Records, queue: seq<JobId>)
    requires Inv(s) && Behind(stored, s)
    ensures Evolves(s, Restarted(stored, s.cap, queue))
  {
    hide RecordsOk, QueueOk, CapOk;
    var t := Restarted(stored, s.cap, queue);
    forall j | j in s.jobs
      ensures JobEvolves(s.jobs[j], t.jobs[j])
    {
      RecoveredIs(stored.jobs, j);
    }
  }

  lemma ActionEvolves(s: Engine, t: Engine, c: ChannelId, action: Channels.Action, swept: seq<Completion>)
    requires Inv(s) && t == s.(channels := t.channels) && ActionOk(t, c, action, swept)
    ensures Evolves(s, OnAction(t, action, swept))
  {
    SameScheduleInv(s, t);
    if action.Close? && c in t.channels {
      SweepEvolves(t, c, t.channels[c].participants, swept);
    }
  }

  lemma StepEvolves(maxRevisions: nat, s: Engine, e: Event)
    requires Inv(s) && Enabled(s, e)
    ensures Evolves(s, Step(maxRevisions, s, e))
  {
    hide Inv, OnCompleted, OnFailed, OnAction, CancelRun, Spawn, Restarted;
    match e
    case SubmitRun(r, root, task) =>
    case SpawnJob(now) => SpawnEvolves(s, now);
    case Heartbeat(j, now) =>
    case JobCompleted(c, outcome) => OnCompletedEvolves(maxRevisions, s, c, outcome);
    case JobFailed(j, note, cs) => OnFailedEvolves(s, j, note, cs);
    case MessageFrom(c, sender, content, swept) =>
      var (t, action) := RouteMessage(s, c, sender, content);
      ActionEvolves(s, t, c, action, swept);
    case DoneFrom(c, sender, swept) =>
      var (t, action) := ChannelDone(s, c, sender);
      ActionEvolves(s, t, c, action, swept);
    case ActivateReady =>
    case Cancel(r, order) => CancelEvolves(s, r, order);
    case Restart(stored, queue) => RestartEvolves(s, stored, queue);
  }

  lemma {:induction false} ExecuteEvolves(maxRevisions: nat, s: Engine, history: seq<Event>)
    requires Inv(s) && Legal(maxRevisions, s, history)
    ensures Evolves(s, Execute(maxRevisions, s, history))
  {
    if history != [] {
      var n := |history| - 1;
      var t := Execute(maxRevisions, s, history[..n]);
      ExecuteEvolves(maxRevisions, s, history[..n]);
      ExecuteKeepsInv(maxRevisions, s, history[..n]);
      StepEvolves(maxRevisions, t, history[n]);
      EvolvesTransitive(s, t, Step(maxRevisions, t, history[n]));
    }
  }

  lemma LaterEvolves(maxRevisions: nat, s: Engine, t: Engine)
    requires Inv(s) && Reaches(maxRevisions, s, t)
    ensures Evolves(s, t)
  {
    hide Inv, Legal, Execute, Evolves;
    var history :| Legal(maxRevisions, s, history) && t == Execute(maxRevisions, s, history);
    ExecuteEvolves(maxRevisions, s, history);
  }
}
