/** Cancelling a run, and restarting the daemon from a stored state. */
module EngineLife {
  import opened Types
  import opened Collections
  import opened EngineSpec
  import opened EngineInv

  // ---- Cancellation ----

  function Elements(order: seq<JobId>): set<JobId> {
    set j | j in order
  }

  // A listing without repetition, less its last element.
  lemma Last(order: seq<JobId>, n: nat)
    requires |order| == n + 1 && Distinct(order)
    ensures Distinct(order[..n]) && order[n] !in order[..n]
    ensures Elements(order) == Elements(order[..n]) + {order[n]}
  {
    assert order == order[..n] + [order[n]];
  }

  ghost function FailedJobs(jobs: Jobs, js: set<JobId>, note: Note): Jobs {
    map j | j in jobs :: if j in js then Failing(jobs[j], note) else jobs[j]
  }

  // Only the record of run r may differ, and not in what it is about.
  ghost predicate OnlyRun(a: Runs, b: Runs, r: RunId) {
    && a.Keys == b.Keys
    && (forall x :: x in a && x != r ==> b[x] == a[x])
    && (r in a ==> b[r].root == a[r].root && b[r].task == a[r].task)
  }

  ghost predicate InRun(s: Engine, order: seq<JobId>, r: RunId) {
    forall j :: j in order ==> j in s.jobs && s.jobs[j].run == r && (j in s.active ==> s.active[j] == r)
  }

  // Failing distinct jobs of one run, one after the other, comes to this.
  ghost predicate FailedTogether(s: Engine, t: Engine, order: seq<JobId>, r: RunId, note: Note) {
    && t.jobs == FailedJobs(s.jobs, Elements(order), note)
    && t.active == s.active - Elements(order)
    && t.beats == s.beats - Elements(order)
    && t.channels == s.channels && t.cap == s.cap
    && OnlyRun(s.runs, t.runs, r)
    && |t.queue| >= |s.queue| && t.queue[..|s.queue|] == s.queue
    && (forall j :: j in t.queue[|s.queue|..] ==> j in order)
  }

  lemma FailOneMoreRecords(s: Engine, t: Engine, order: seq<JobId>, j: JobId, r: RunId, note: Note)
    requires FailedTogether(s, t, order, r, note) && j in s.jobs && j !in order
    ensures var u := MarkFailed(t, j, note);
      && u.jobs == FailedJobs(s.jobs, Elements(order + [j]), note)
      && u.active == s.active - Elements(order + [j])
      && u.beats == s.beats - Elements(order + [j])
  {
    assert Elements(order + [j]) == Elements(order) + {j};
  }

  lemma CheckCompletionOnly(runs: Runs, jobs: Jobs, r: RunId)
    ensures OnlyRun(runs, CheckCompletion(runs, jobs, r), r)
  {
  }

  lemma FailOneMore(s: Engine, t: Engine, order: seq<JobId>, j: JobId, r: RunId, note: Note)
    requires FailedTogether(s, t, order, r, note)
    requires j in s.jobs && j !in order && s.jobs[j].run == r && (j in s.active ==> s.active[j] == r)
    ensures FailedTogether(s, MarkFailed(t, j, note), order + [j], r, note)
  {
    var u := MarkFailed(t, j, note);
    FailOneMoreRecords(s, t, order, j, r, note);
    CheckCompletionOnly(t.runs, u.jobs, r);
    var n := |s.queue|;
    assert u.queue == t.queue || u.queue == t.queue + [j];
    assert u.queue[n..] == t.queue[n..] || u.queue[n..] == t.queue[n..] + [j];
  }

  lemma {:induction false} FailAllTogether(s: Engine, order: seq<JobId>, r: RunId, note: Note)
    requires Distinct(order) && InRun(s, order, r)
    ensures FailedTogether(s, FailAll(s, order, note), order, r, note)
  {
    if order == [] {
      assert FailedJobs(s.jobs, Elements(order), note) == s.jobs;
      assert s.active - Elements(order) == s.active && s.beats - Elements(order) == s.beats;
    } else {
      var n := |order| - 1;
      FailAllTogether(s, order[..n], r, note);
      assert order == order[..n] + [order[n]];
      FailOneMore(s, FailAll(s, order[..n], note), order[..n], order[n], r, note);
    }
  }

  // The queue a cancellation leaves: what was queued, in the same order, less
  // the jobs of the run.
  lemma CancelledQueue(s: Engine, t: Engine, order: seq<JobId>, r: RunId, note: Note)
    requires FailedTogether(s, t, order, r, note) && InRun(s, order, r)
    ensures Filter(t.queue, Foreign(t.jobs, r)) == Filter(s.queue, Foreign(s.jobs, r))
  {
    var before, pushed := t.queue[..|s.queue|], t.queue[|s.queue|..];
    assert t.queue == before + pushed;
    FilterConcat(before, pushed, Foreign(t.jobs, r));
    FilterNone(pushed, Foreign(t.jobs, r));
    FilterAgrees(s.queue, Foreign(t.jobs, r), Foreign(s.jobs, r));
  }

  // What a cancellation amounts to, whatever order the jobs are failed in. The
  // run is Cancelled; its unfinished jobs are Ready again, off the queue, if
  // they had attempts left, and Failed otherwise; nothing else has changed.
  ghost predicate Cancelled(s: Engine, t: Engine, r: RunId) {
    && t.jobs == FailedJobs(s.jobs, Unfinished(s.jobs, r), CancelledByUser)
    && t.active == s.active - Unfinished(s.jobs, r)
    && t.beats == s.beats - Unfinished(s.jobs, r)
    && t.channels == s.channels && t.cap == s.cap
    && t.queue == Filter(s.queue, Foreign(s.jobs, r))
    && OnlyRun(s.runs, t.runs, r)
    && r in t.runs && t.runs[r].status.Cancelled?
  }

  lemma UnfinishedInRun(s: Engine, r: RunId, order: seq<JobId>)
    requires SlotsOk(s.jobs, s.active) && Enumerates(order, Unfinished(s.jobs, r))
    ensures InRun(s, order, r) && Elements(order) == Unfinished(s.jobs, r)
  {
  }

  lemma CancelSpec(s: Engine, r: RunId, order: seq<JobId>)
    requires Undecided(s.runs, r) && SlotsOk(s.jobs, s.active)
    requires Enumerates(order, Unfinished(s.jobs, r))
    ensures Cancelled(s, CancelRun(s, r, order), r)
  {
    hide FailAll, SlotsOk, InRun, Filter;
    UnfinishedInRun(s, r, order);
    FailAllTogether(s, order, r, CancelledByUser);
    CancelledQueue(s, FailAll(s, order, CancelledByUser), order, r, CancelledByUser);
  }

  // What is cancelled is one job, which waits for nothing.
  lemma OnlyRootWaits(runs: Runs, jobs: Jobs, r: RunId, k: JobId)
    requires RefsOk(runs, jobs) && RootsOk(runs, jobs) && DepsExact(jobs) && Undecided(runs, r)
    requires k in jobs && jobs[k].run == r
    ensures !jobs[k].status.Pending?
  {
    assert DepsDone(jobs, jobs[k].deps);
  }

  lemma CancelledDeps(runs: Runs, jobs: Jobs, r: RunId, note: Note)
    requires RefsOk(runs, jobs) && RootsOk(runs, jobs) && DepsExact(jobs) && Undecided(runs, r)
    ensures DepsExact(FailedJobs(jobs, Unfinished(jobs, r), note))
  {
    hide RefsOk, RootsOk;
    var t := FailedJobs(jobs, Unfinished(jobs, r), note);
    forall k | k in t
      ensures t[k].status.Pending? <==> !DepsDone(t, t[k].deps)
    {
      DepsDoneAgrees(jobs, t, jobs[k].deps);
      assert DepsDone(jobs, jobs[k].deps) <==> DepsDone(t, t[k].deps);
      if jobs[k].run == r {
        OnlyRootWaits(runs, jobs, r, k);
      }
    }
  }

  lemma CancelledAttempts(jobs: Jobs, js: set<JobId>, note: Note)
    requires AttemptsOk(jobs)
    ensures AttemptsOk(FailedJobs(jobs, js, note))
  {
    var t := FailedJobs(jobs, js, note);
    forall j | j in t ensures AttemptOk(t[j]) {
      assert AttemptOk(jobs[j]);
    }
  }

  lemma CancelledRefs(runs: Runs, after: Runs, jobs: Jobs, r: RunId, note: Note)
    requires RefsOk(runs, jobs) && RootsOk(runs, jobs) && OnlyRun(runs, after, r) && Undecided(runs, r)
    ensures var t := FailedJobs(jobs, Unfinished(jobs, r), note); RefsOk(after, t) && RootsOk(after, t)
  {
    var t := FailedJobs(jobs, Unfinished(jobs, r), note);
    assert forall j :: j in jobs ==> t[j].run == jobs[j].run && t[j].deps == jobs[j].deps;
  }

  lemma CancelledRecords(runs: Runs, after: Runs, jobs: Jobs, r: RunId, note: Note)
    requires RecordsOk(runs, jobs) && OnlyRun(runs, after, r) && r in after && after[r].status.Cancelled?
    requires Undecided(runs, r)
    ensures RecordsOk(after, FailedJobs(jobs, Unfinished(jobs, r), note))
  {
    hide RefsOk, DepsExact, AttemptsOk, RootsOk;
    CancelledRefs(runs, after, jobs, r, note);
    CancelledDeps(runs, jobs, r, note);
    CancelledAttempts(jobs, Unfinished(jobs, r), note);
  }

  lemma CancelledSchedule(s: Engine, t: Engine, r: RunId)
    requires QueueOk(s.runs, s.jobs, s.queue) && SlotsOk(s.jobs, s.active) && Cancelled(s, t, r)
    ensures QueueOk(t.runs, t.jobs, t.queue) && SlotsOk(t.jobs, t.active)
  {
    FilterDistinct(s.queue, Foreign(s.jobs, r));
    assert forall j :: j in t.queue <==> j in s.queue && Foreign(s.jobs, r)(j);
  }

  lemma CancelKeeps(s: Engine, r: RunId, order: seq<JobId>)
    requires Inv(s)
    requires Undecided(s.runs, r) ==> Enumerates(order, Unfinished(s.jobs, r))
    ensures Inv(CancelRun(s, r, order))
  {
    if Undecided(s.runs, r) {
      var t := CancelRun(s, r, order);
      CancelSpec(s, r, order);
      CancelledRecords(s.runs, t.runs, s.jobs, r, CancelledByUser);
      CancelledSchedule(s, t, r);
      SubsetSize(t.active.Keys, s.active.Keys);
    }
  }

  // ---- Restart ----

  // What a restart makes of one job.
  function Recovered(b: Job): Job {
    if !b.status.Running? then b
    else if b.attempt < b.maxAttempts then b.(error := Some(ProcessLost), status := JobStatus.Ready)
    else b.(error := Some(ProcessLost), status := JobStatus.Failed)
  }

  lemma RecoveredIs(jobs: Jobs, j: JobId)
    requires j in jobs
    ensures j in RestartedJobs(jobs) && RestartedJobs(jobs)[j] == Recovered(jobs[j])
  {
  }

  lemma RecoveredAttempts(jobs: Jobs)
    ensures AttemptsOk(RestartedJobs(jobs)) <==> AttemptsOk(jobs)
  {
    var t := RestartedJobs(jobs);
    forall j | j in jobs ensures AttemptOk(t[j]) <==> AttemptOk(jobs[j]) {
      RecoveredIs(jobs, j);
    }
    if AttemptsOk(t) {
      forall j | j in jobs ensures AttemptOk(jobs[j]) {
        assert AttemptOk(t[j]);
      }
    }
  }

  lemma RecoveredRefs(runs: Runs, jobs: Jobs)
    ensures RefsOk(runs, RestartedJobs(jobs)) <==> RefsOk(runs, jobs)
    ensures RootsOk(runs, RestartedJobs(jobs)) <==> RootsOk(runs, jobs)
  {
    var t := RestartedJobs(jobs);
    forall j | j in jobs
      ensures t[j].run == jobs[j].run && t[j].deps == jobs[j].deps && t[j].role == jobs[j].role
    {
      RecoveredIs(jobs, j);
    }
    if RefsOk(runs, t) {
      forall j | j in jobs ensures jobs[j].run in runs { assert t[j].run in runs; }
      forall j, d | j in jobs && d in jobs[j].deps
        ensures d in jobs && d != j && jobs[d].run == jobs[j].run
      {
        assert d in t[j].deps;
      }
    }
    if RootsOk(runs, t) {
      forall j | j in jobs && (Undecided(runs, jobs[j].run) || CancelledRun(runs, jobs[j].run))
        ensures j == runs[jobs[j].run].root && jobs[j].role.Planner?
      {
        assert t[j].run == jobs[j].run;
      }
    }
  }

  lemma RecoveredDeps(jobs: Jobs)
    ensures DepsExact(RestartedJobs(jobs)) <==> DepsExact(jobs)
  {
    var t := RestartedJobs(jobs);
    forall j | j in jobs ensures DepsDone(t, t[j].deps) <==> DepsDone(jobs, jobs[j].deps) {
      DepsDoneAgrees(jobs, t, jobs[j].deps);
    }
    if DepsExact(t) {
      forall j | j in jobs
        ensures jobs[j].status.Pending? <==> !DepsDone(jobs, jobs[j].deps)
      {
        assert t[j].status.Pending? <==> !DepsDone(t, t[j].deps);
      }
    }
    if DepsExact(jobs) {
      forall j | j in t
        ensures t[j].status.Pending? <==> !DepsDone(t, t[j].deps)
      {
        assert jobs[j].status.Pending? <==> !DepsDone(jobs, jobs[j].deps);
      }
    }
  }

  lemma RestartRecords(runs: Runs, jobs: Jobs)
    ensures RecordsOk(runs, RestartedJobs(jobs)) <==> RecordsOk(runs, jobs)
  {
    hide RefsOk, AttemptsOk, DepsExact, RootsOk;
    RecoveredAttempts(jobs);
    RecoveredRefs(runs, jobs);
    RecoveredDeps(jobs);
  }

  // Whatever was stored, however the rows were loaded: restarting from it gives
  // an engine that satisfies the invariant exactly when the stored records
  // satisfy their part of it.
  lemma RestartKeepsInvIff(stored: Records, cap: nat, queue: seq<JobId>)
    requires Enumerates(queue, ReadyJobs(RestartedJobs(stored.jobs)))
    ensures Inv(Restarted(stored, cap, queue)) <==> RecordsOk(stored.runs, stored.jobs)
  {
    hide RecordsOk;
    var t := Restarted(stored, cap, queue);
    RestartRecords(stored.runs, stored.jobs);
    forall j | j in stored.jobs ensures t.jobs[j] == Recovered(stored.jobs[j]) {
      RecoveredIs(stored.jobs, j);
    }
  }

  // What a restart preserves and what it does not: completed work, attempts
  // and conversations stay; nothing runs; a lost job is retried exactly if it
  // has attempts left.
  lemma RecoverySpec(stored: Records, cap: nat, queue: seq<JobId>)
    requires Enumerates(queue, ReadyJobs(RestartedJobs(stored.jobs)))
    ensures var t := Restarted(stored, cap, queue);
      && t.active == map[] && t.runs == stored.runs
      && t.jobs.Keys == stored.jobs.Keys && t.channels.Keys == stored.channels.Keys
      && |t.queue| == |ReadyJobs(t.jobs)|
      && (forall j :: j in stored.jobs ==>
            && !t.jobs[j].status.Running?
            && t.jobs[j].attempt == stored.jobs[j].attempt && t.jobs[j].outputs == stored.jobs[j].outputs
            && (!stored.jobs[j].status.Running? ==> t.jobs[j] == stored.jobs[j])
            && (stored.jobs[j].status.Running? ==> t.jobs[j].error == Some(ProcessLost))
            && (stored.jobs[j].status.Running? ==>
                  if stored.jobs[j].attempt < stored.jobs[j].maxAttempts
                  then t.jobs[j].status.Ready? else t.jobs[j].status.Failed?)
            && (j in t.queue <==> t.jobs[j].status.Ready?))
      && (forall c :: c in stored.channels ==>
            && t.channels[c].history == stored.channels[c].history
            && t.channels[c].speaker == stored.channels[c].speaker && t.channels[c].round == stored.channels[c].round
            && t.channels[c].closed == stored.channels[c].closed
            && (!stored.channels[c].closed ==> !t.channels[c].active))
  {
    EnumerationSize(queue, ReadyJobs(RestartedJobs(stored.jobs)));
  }

  // ---- Records that are not the latest ----

  // The stored record of a job is older than its last start, and by no more.
  ghost predicate StartLost(b: Job, c: Job) {
    b.status.Ready? && c == b.(status := JobStatus.Running, attempt := b.attempt + 1)
  }

  // All that the stored records may lack is starts: of jobs, with them of
  // their runs, and of conversations.
  ghost predicate Behind(stored: Records, s: Engine) {
    && stored.runs.Keys == s.runs.Keys && stored.jobs.Keys == s.jobs.Keys && stored.channels.Keys == s.channels.Keys
    && (forall j :: j in s.jobs ==> stored.jobs[j] == s.jobs[j] || StartLost(stored.jobs[j], s.jobs[j]))
    && (forall r :: r in s.runs ==>
          || stored.runs[r] == s.runs[r]
          || (&& stored.runs[r].status.Pending? && s.runs[r] == stored.runs[r].(status := RunStatus.Running)
              && exists j :: j in s.jobs && s.jobs[j].run == r && StartLost(stored.jobs[j], s.jobs[j])))
    && (forall c :: c in s.channels ==>
          || stored.channels[c] == s.channels[c]
          || (&& !stored.channels[c].active && !stored.channels[c].closed
              && s.channels[c] == stored.channels[c].(active := true)))
  }

  lemma BehindRefs(stored: Records, s: Engine)
    requires Behind(stored, s) && RefsOk(s.runs, s.jobs) && RootsOk(s.runs, s.jobs)
    ensures RefsOk(stored.runs, stored.jobs) && RootsOk(stored.runs, stored.jobs)
  {
    assert forall j :: j in s.jobs ==>
      stored.jobs[j].run == s.jobs[j].run && stored.jobs[j].deps == s.jobs[j].deps && stored.jobs[j].role == s.jobs[j].role;
    forall j, d | j in stored.jobs && d in stored.jobs[j].deps
      ensures d in stored.jobs && d != j && stored.jobs[d].run == stored.jobs[j].run
    {
      assert d in s.jobs[j].deps;
    }
  }

  lemma BehindDeps(stored: Records, s: Engine)
    requires Behind(stored, s) && RefsOk(s.runs, s.jobs) && DepsExact(s.jobs)
    ensures DepsExact(stored.jobs)
  {
    forall j | j in stored.jobs
      ensures stored.jobs[j].status.Pending? <==> !DepsDone(stored.jobs, stored.jobs[j].deps)
    {
      DepsDoneAgrees(s.jobs, stored.jobs, s.jobs[j].deps);
      assert s.jobs[j].status.Pending? <==> !DepsDone(s.jobs, s.jobs[j].deps);
    }
  }

  lemma BehindRecords(stored: Records, s: Engine)
    requires Behind(stored, s) && RecordsOk(s.runs, s.jobs)
    ensures RecordsOk(stored.runs, stored.jobs)
  {
    hide RefsOk, DepsExact, RootsOk, Behind;
    BehindRefs(stored, s);
    BehindDeps(stored, s);
    BehindAttempts(stored, s);
  }

  lemma BehindAttempts(stored: Records, s: Engine)
    requires Behind(stored, s) && AttemptsOk(s.jobs)
    ensures AttemptsOk(stored.jobs)
  {
    forall j | j in stored.jobs ensures AttemptOk(stored.jobs[j]) {
      assert AttemptOk(s.jobs[j]);
    }
  }
}
