/** `mark_failed` and `mark_completed` do not ask whether the job they are given
    holds a slot. Called for one that does, they keep the invariant; this module
    says exactly when they keep it otherwise, and shows the calls that break it. */
module EngineExact {
  import opened Types
  import opened Collections
  import opened EngineSpec
  import opened EngineInv

  // Every job waiting for j is still Pending.
  ghost predicate NobodyStarted(jobs: Jobs, j: JobId) {
    forall k :: k in jobs && j in jobs[k].deps ==> jobs[k].status.Pending?
  }

  ghost predicate FailHarmless(s: Engine, j: JobId) {
    || j !in s.jobs
    || j in s.active
    || s.jobs[j].status.Failed?
    || (s.jobs[j].status.Ready? && j !in s.queue)
    || (s.jobs[j].status.Completed? && NobodyStarted(s.jobs, j))
  }

  lemma FailKeepsInvIff(s: Engine, j: JobId, note: Note)
    requires Inv(s)
    ensures Inv(MarkFailed(s, j, note)) <==> FailHarmless(s, j)
  {
    if j in s.active {
      FailKeeps(s, j, note);
    } else if j !in s.jobs {
      IdleFailOfUnknown(s, j, note);
    } else if s.jobs[j].status.Ready? {
      FailOfReady(s, j, note);
    } else if s.jobs[j].status.Pending? {
      FailOfPending(s, j, note);
    } else if s.jobs[j].status.Failed? {
      FailOfFailed(s, j, note);
    } else {
      assert j !in s.active;
      FailOfCompleted(s, j, note);
    }
  }

  lemma IdleFailOfUnknown(s: Engine, j: JobId, note: Note)
    requires j !in s.jobs && j !in s.active && CapOk(s)
    ensures MarkFailed(s, j, note) == s
  {
    assert s.active - {j} == s.active && s.beats - {j} == s.beats;
  }

  // A queued job would be queued twice; one that was taken off the queue is put
  // back.
  lemma FailOfReady(s: Engine, j: JobId, note: Note)
    requires Inv(s) && j in s.jobs && s.jobs[j].status.Ready? && j !in s.active
    ensures Inv(MarkFailed(s, j, note)) <==> j !in s.queue
  {
    var t, b := MarkFailed(s, j, note), Failing(s.jobs[j], note);
    assert AttemptOk(s.jobs[j]);
    assert t.queue == s.queue + [j] && t.queue[|s.queue|] == j;
    if j in s.queue {
      var i :| 0 <= i < |s.queue| && s.queue[i] == j;
      assert t.queue[i] == t.queue[|s.queue|];
    } else {
      hide RefsOk, DepsExact, RootsOk, QueueOk, SlotsOk, CapOk;
      ReadyTouches(s.jobs, j, note);
      TouchRecords(s.runs, s.runs, s.jobs, s.jobs[j := b]);
      RequeueKeeps(s.runs, s.jobs, s.queue, j, b);
      FailSlots(s.jobs, s.active, j, b);
      FreeKeepsCap(s, t, j);
    }
  }

  lemma RequeueKeeps(runs: Runs, jobs: Jobs, queue: seq<JobId>, j: JobId, b: Job)
    requires QueueOk(runs, jobs, queue) && j in jobs && j !in queue && b.status.Ready? && b.run == jobs[j].run
    ensures QueueOk(runs, jobs[j := b], queue + [j])
  {
    DistinctConcat(queue, [j]);
  }

  lemma ReadyTouches(jobs: Jobs, j: JobId, note: Note)
    requires AttemptsOk(jobs) && j in jobs && jobs[j].status.Ready?
    ensures Failing(jobs[j], note).status.Ready? && AllTouched(jobs, jobs[j := Failing(jobs[j], note)])
  {
    assert AttemptOk(jobs[j]);
    forall k | k in jobs ensures AttemptOk(jobs[j := Failing(jobs[j], note)][k]) {
      assert AttemptOk(jobs[k]);
    }
  }

  // What a Pending job waits for.
  lemma Blocker(jobs: Jobs, j: JobId) returns (d: JobId)
    requires DepsExact(jobs) && j in jobs && jobs[j].status.Pending?
    ensures d in jobs[j].deps && !(d in jobs && jobs[d].status.Completed?)
  {
    assert !DepsDone(jobs, jobs[j].deps);
    d :| d in jobs[j].deps && !(d in jobs && jobs[d].status.Completed?);
  }

  // A waiting job would be started before what it waits for.
  lemma FailOfPending(s: Engine, j: JobId, note: Note)
    requires DepsExact(s.jobs) && j in s.jobs && s.jobs[j].status.Pending?
    ensures !DepsExact(MarkFailed(s, j, note).jobs)
  {
    var t := MarkFailed(s, j, note);
    var d := Blocker(s.jobs, j);
    assert d == j || !(d in t.jobs && t.jobs[d].status.Completed?);
    assert !DepsDone(t.jobs, t.jobs[j].deps);
  }

  // A job that is not queued and does not become Ready is nothing to the queue.
  lemma IdleQueue(runs: Runs, jobs: Jobs, queue: seq<JobId>, j: JobId, b: Job)
    requires QueueOk(runs, jobs, queue) && j in jobs && j !in queue && !b.status.Ready?
    ensures QueueOk(runs, jobs[j := b], queue)
  {
  }

  lemma FailedTouches(jobs: Jobs, j: JobId, note: Note)
    requires AttemptsOk(jobs) && j in jobs && jobs[j].status.Failed?
    ensures Failing(jobs[j], note).status.Failed? && AllTouched(jobs, jobs[j := Failing(jobs[j], note)])
  {
    assert AttemptOk(jobs[j]);
    forall k | k in jobs ensures AttemptOk(jobs[j := Failing(jobs[j], note)][k]) {
      assert AttemptOk(jobs[k]);
    }
  }

  lemma FailOfFailed(s: Engine, j: JobId, note: Note)
    requires Inv(s) && j in s.jobs && s.jobs[j].status.Failed? && j !in s.active
    ensures Inv(MarkFailed(s, j, note))
  {
    assert j !in s.queue;
    hide RefsOk, AttemptsOk, DepsExact, RootsOk, QueueOk, SlotsOk, CapOk, AllTouched;
    var t, b := MarkFailed(s, j, note), Failing(s.jobs[j], note);
    assert Advances(s.runs, s.runs);
    FailedTouches(s.jobs, j, note);
    TouchRecords(s.runs, s.runs, s.jobs, s.jobs[j := b]);
    IdleQueue(s.runs, s.jobs, s.queue, j, b);
    FailSlots(s.jobs, s.active, j, b);
    FreeKeepsCap(s, t, j);
  }

  lemma FailOfCompleted(s: Engine, j: JobId, note: Note)
    requires Inv(s) && j in s.jobs && s.jobs[j].status.Completed? && j !in s.active
    ensures Inv(MarkFailed(s, j, note)) <==> NobodyStarted(s.jobs, j)
  {
    if NobodyStarted(s.jobs, j) {
      ReopenKeeps(s, j, note);
    } else {
      ReopenBreaks(s, j, note);
    }
  }

  lemma ReopenKeeps(s: Engine, j: JobId, note: Note)
    requires Inv(s) && j in s.jobs && s.jobs[j].status.Completed? && j !in s.active && NobodyStarted(s.jobs, j)
    ensures Inv(MarkFailed(s, j, note))
  {
    hide RefsOk, DepsExact, RootsOk, QueueOk, SlotsOk, CapOk, NobodyStarted;
    var t, b := MarkFailed(s, j, note), Failing(s.jobs[j], note);
    assert AttemptOk(s.jobs[j]);
    ReopenRecords(s.runs, s.jobs, j, b);
    FailQueue(s.runs, s.runs, s.jobs, s.queue, j, b);
    FailSlots(s.jobs, s.active, j, b);
    FreeKeepsCap(s, t, j);
  }

  // A job already started on the strength of j would be left without it.
  lemma ReopenBreaks(s: Engine, j: JobId, note: Note)
    requires RefsOk(s.runs, s.jobs)
    requires j in s.jobs && s.jobs[j].status.Completed? && j !in s.active && !NobodyStarted(s.jobs, j)
    ensures !DepsExact(MarkFailed(s, j, note).jobs)
  {
    var t := MarkFailed(s, j, note);
    var k :| k in s.jobs && j in s.jobs[k].deps && !s.jobs[k].status.Pending?;
    assert k != j && t.jobs[k] == s.jobs[k];
    assert !DepsDone(t.jobs, t.jobs[k].deps);
  }

  lemma ReopenDeps(runs: Runs, jobs: Jobs, j: JobId, b: Job)
    requires RefsOk(runs, jobs) && DepsExact(jobs) && j in jobs && jobs[j].status.Completed? && NobodyStarted(jobs, j)
    requires Touched(jobs[j], b) && (b.status.Ready? || b.status.Failed?)
    ensures DepsExact(jobs[j := b])
  {
    var t := jobs[j := b];
    forall k | k in t
      ensures t[k].status.Pending? <==> !DepsDone(t, t[k].deps)
    {
      if j in jobs[k].deps {
        assert k != j;
      } else {
        DepsDoneAgrees(jobs, t, jobs[k].deps);
        assert DepsDone(jobs, jobs[k].deps) <==> DepsDone(t, t[k].deps);
      }
    }
  }

  lemma ReopenRecords(runs: Runs, jobs: Jobs, j: JobId, b: Job)
    requires RecordsOk(runs, jobs) && j in jobs && jobs[j].status.Completed? && NobodyStarted(jobs, j)
    requires Touched(jobs[j], b) && AttemptOk(b) && (b.status.Ready? || b.status.Failed?)
    ensures RecordsOk(runs, jobs[j := b])
  {
    hide DepsExact, NobodyStarted;
    ReopenDeps(runs, jobs, j, b);
  }

  // ---- mark_completed ----

  // Everything that waits for j waits for something else as well.
  ghost predicate StillBlocked(jobs: Jobs, j: JobId) {
    forall k :: k in jobs && j in jobs[k].deps ==>
      exists d :: d in jobs[k].deps && d != j && !(d in jobs && jobs[d].status.Completed?)
  }

  ghost predicate CompleteHarmless(s: Engine, j: JobId) {
    || j !in s.jobs
    || j in s.active
    || s.jobs[j].status.Completed?
    || ((s.jobs[j].status.Failed? || (s.jobs[j].status.Ready? && j !in s.queue)) && StillBlocked(s.jobs, j))
  }

  lemma CompleteKeepsInvIff(s: Engine, j: JobId, outputs: seq<ArtifactId>, promoted: seq<JobId>)
    requires Inv(s) && Enumerates(promoted, PromotedBy(s, j, outputs))
    ensures Inv(MarkCompleted(s, j, outputs, promoted)) <==> CompleteHarmless(s, j)
  {
    hide RecordsOk, QueueOk, SlotsOk;
    if j in s.active {
      CompleteKeeps(s, j, outputs, promoted);
    } else if j !in s.jobs {
      assert s.active - {j} == s.active && s.beats - {j} == s.beats;
      assert MarkCompleted(s, j, outputs, promoted) == s;
    } else {
      LateComplete(s, j, outputs, promoted);
    }
  }

  lemma LateComplete(s: Engine, j: JobId, outputs: seq<ArtifactId>, promoted: seq<JobId>)
    requires Inv(s) && j in s.jobs && j !in s.active
    ensures Inv(MarkCompleted(s, j, outputs, promoted)) <==> CompleteHarmless(s, j)
  {
    hide RefsOk, AttemptsOk, RootsOk;
    var t := MarkCompleted(s, j, outputs, promoted);
    var b := s.jobs[j].(status := JobStatus.Completed, outputs := outputs);
    assert t.jobs == s.jobs[j := b] && t.runs == s.runs;
    LateIs(s, j);
    if s.jobs[j].status.Pending? {
      var d := Blocker(s.jobs, j);
      SelfDepNot(s.runs, s.jobs, j, d);
      assert !DepsDone(t.jobs, t.jobs[j].deps);
    } else if j in s.queue {
      assert j in t.queue && t.jobs[j].status.Completed?;
    } else {
      LateRecords(s.runs, s.jobs, j, b);
      LateSchedule(s, j, outputs, promoted);
    }
  }

  lemma SelfDepNot(runs: Runs, jobs: Jobs, j: JobId, d: JobId)
    requires RefsOk(runs, jobs) && j in jobs && d in jobs[j].deps
    ensures d != j
  {
  }

  lemma LateIs(s: Engine, j: JobId)
    requires AttemptsOk(s.jobs) && SlotsOk(s.jobs, s.active) && j in s.jobs && j !in s.active
    ensures !s.jobs[j].status.Running? && !s.jobs[j].status.Cancelled?
  {
    assert AttemptOk(s.jobs[j]);
  }

  lemma LateSchedule(s: Engine, j: JobId, outputs: seq<ArtifactId>, promoted: seq<JobId>)
    requires Inv(s) && j in s.jobs && j !in s.active && j !in s.queue
    ensures var t := MarkCompleted(s, j, outputs, promoted);
      QueueOk(t.runs, t.jobs, t.queue) && SlotsOk(t.jobs, t.active) && CapOk(t)
  {
    hide RecordsOk, QueueOk, SlotsOk, CapOk, Promote, CheckCompletion;
    var t := MarkCompleted(s, j, outputs, promoted);
    var b := s.jobs[j].(status := JobStatus.Completed, outputs := outputs);
    IdleQueue(s.runs, s.jobs, s.queue, j, b);
    FailSlots(s.jobs, s.active, j, b);
    FreeKeepsCap(s, t, j);
  }

  lemma LateRecords(runs: Runs, jobs: Jobs, j: JobId, b: Job)
    requires RecordsOk(runs, jobs) && j in jobs && Touched(jobs[j], b) && b.status.Completed?
    requires b.attempt == jobs[j].attempt && b.maxAttempts == jobs[j].maxAttempts
    requires !jobs[j].status.Pending?
    ensures RecordsOk(runs, jobs[j := b]) <==> jobs[j].status.Completed? || StillBlocked(jobs, j)
  {
    hide DepsExact, StillBlocked;
    assert AttemptOk(jobs[j]);
    if jobs[j].status.Completed? {
      assert Advances(runs, runs);
      TouchRecords(runs, runs, jobs, jobs[j := b]);
    } else {
      LateCompleteDeps(runs, jobs, j, b);
    }
  }

  lemma LateCompleteDeps(runs: Runs, jobs: Jobs, j: JobId, b: Job)
    requires RefsOk(runs, jobs) && DepsExact(jobs) && j in jobs
    requires !jobs[j].status.Completed? && !jobs[j].status.Pending?
    requires Touched(jobs[j], b) && b.status.Completed?
    ensures DepsExact(jobs[j := b]) <==> StillBlocked(jobs, j)
  {
    var t := jobs[j := b];
    assert DepsDone(jobs, jobs[j].deps);
    if StillBlocked(jobs, j) {
      forall k | k in t
        ensures t[k].status.Pending? <==> !DepsDone(t, t[k].deps)
      {
        BlockedElsewhere(jobs, t, j, k);
        assert DepsDone(jobs, jobs[k].deps) <==> DepsDone(t, t[k].deps);
      }
    } else {
      var k :| k in jobs && j in jobs[k].deps
        && forall d :: d in jobs[k].deps && d != j ==> d in jobs && jobs[d].status.Completed?;
      assert DepsDone(t, t[k].deps) && !DepsDone(jobs, jobs[k].deps);
      assert t[k].status.Pending?;
    }
  }

  lemma BlockedElsewhere(jobs: Jobs, t: Jobs, j: JobId, k: JobId)
    requires j in jobs && k in jobs && t.Keys == jobs.Keys && StillBlocked(jobs, j)
    requires forall d :: d in jobs && d != j ==> t[d] == jobs[d]
    requires t[k].deps == jobs[k].deps && !jobs[j].status.Completed?
    ensures DepsDone(jobs, jobs[k].deps) <==> DepsDone(t, t[k].deps)
  {
    if j in jobs[k].deps {
      var d :| d in jobs[k].deps && d != j && !(d in jobs && jobs[d].status.Completed?);
    } else {
      DepsDoneAgrees(jobs, t, jobs[k].deps);
    }
  }
}
