/** What every call of the engine keeps, and exactly which calls do not keep it. */
module EngineInv {
  import opened Types
  import opened Collections
  import opened EngineSpec

  type Runs = map<RunId, Run>
  type Jobs = map<JobId, Job>

  // A job belongs to a known run; what it waits for is in the same run.
  ghost predicate RefsOk(runs: Runs, jobs: Jobs) {
    && (forall j :: j in jobs ==> jobs[j].run in runs)
    && (forall j, d {:trigger d in jobs[j].deps} :: j in jobs && d in jobs[j].deps ==>
          d in jobs && d != j && jobs[d].run == jobs[j].run)
  }

  ghost predicate AttemptOk(b: Job) {
    && b.attempt <= b.maxAttempts
    && !b.status.Cancelled?
    && (b.status.Failed? ==> b.attempt == b.maxAttempts)
    && (b.status.Pending? || b.status.Ready? ==> b.attempt < b.maxAttempts)
  }

  ghost predicate AttemptsOk(jobs: Jobs) {
    forall j :: j in jobs ==> AttemptOk(jobs[j])
  }

  // The ready queue holds Ready jobs, each once, and all of those whose runs are
  // not cancelled. (The planner of a cancelled run is off the queue until a
  // restart, or a late report, puts it back.)
  ghost predicate QueueOk(runs: Runs, jobs: Jobs, queue: seq<JobId>) {
    && Distinct(queue)
    && (forall j {:trigger j in queue} :: j in queue ==> j in jobs && jobs[j].status.Ready?)
    && (forall j {:trigger j in queue} :: j in jobs && jobs[j].status.Ready? && Live(runs, jobs[j].run) ==> j in queue)
  }

  // The slots hold exactly the Running jobs, never more than the cap allows.
  ghost predicate SlotsOk(jobs: Jobs, active: map<JobId, RunId>) {
    && (forall j {:trigger j in active} :: j in active <==> j in jobs && jobs[j].status.Running?)
    && (forall j {:trigger active[j]} :: j in active ==> active[j] == jobs[j].run)
  }

  // A job is Pending exactly while something it depends on is not Completed.
  ghost predicate DepsExact(jobs: Jobs) {
    forall j {:trigger DepsDone(jobs, jobs[j].deps)} :: j in jobs ==>
      (jobs[j].status.Pending? <==> !DepsDone(jobs, jobs[j].deps))
  }

  ghost predicate CancelledRun(runs: Runs, r: RunId) {
    r in runs && runs[r].status.Cancelled?
  }

  // A run that was never given a verdict, because it is still being planned or
  // was cancelled while it was, has only its planner.
  ghost predicate RootsOk(runs: Runs, jobs: Jobs) {
    forall j :: j in jobs && (Undecided(runs, jobs[j].run) || CancelledRun(runs, jobs[j].run)) ==>
      j == runs[jobs[j].run].root && jobs[j].role.Planner?
  }

  ghost predicate CapOk(s: Engine) {
    s.beats.Keys == s.active.Keys && |s.active| <= s.cap
  }

  // What the records alone must satisfy.
  ghost predicate RecordsOk(runs: Runs, jobs: Jobs) {
    RefsOk(runs, jobs) && AttemptsOk(jobs) && DepsExact(jobs) && RootsOk(runs, jobs)
  }

  ghost predicate Inv(s: Engine) {
    && RecordsOk(s.runs, s.jobs)
    && QueueOk(s.runs, s.jobs, s.queue)
    && SlotsOk(s.jobs, s.active)
    && CapOk(s)
  }

  lemma InitInv(cap: nat)
    ensures Inv(Init(cap))
  {
  }

  // Neither channels nor heartbeats matter to it.
  lemma SameScheduleInv(s: Engine, t: Engine)
    requires Inv(s)
    requires t == s.(channels := t.channels, beats := t.beats) && t.beats.Keys == s.beats.Keys
    ensures Inv(t)
  {
  }

  // The calls below change a run record only in these ways. A cancelled run can
  // be given a verdict after all.
  ghost predicate Advances(a: Runs, b: Runs) {
    && a.Keys == b.Keys
    && (forall r :: r in a ==>
          && (b[r].status.Cancelled? ==> a[r].status.Cancelled?)
          && a[r].root == b[r].root && a[r].task == b[r].task
          && (Undecided(b, r) ==> Undecided(a, r)))
  }

  // A run gets a verdict only when none of its jobs is Ready.
  ghost predicate NoneFreed(runs: Runs, after: Runs, t: Jobs) {
    forall j :: j in t && t[j].status.Ready? && Live(after, t[j].run) ==> Live(runs, t[j].run)
  }

  lemma StartRunAdvances(runs: Runs, r: RunId)
    ensures Advances(runs, StartRun(runs, r))
    ensures forall x :: Live(StartRun(runs, r), x) <==> Live(runs, x)
  {
  }

  lemma CheckCompletionAdvances(runs: Runs, jobs: Jobs, r: RunId)
    ensures Advances(runs, CheckCompletion(runs, jobs, r))
    ensures NoneFreed(runs, CheckCompletion(runs, jobs, r), jobs)
  {
    hide FinalOutputs, SomeFailed;
    forall j | j in jobs && jobs[j].status.Ready? && Live(CheckCompletion(runs, jobs, r), jobs[j].run)
      ensures Live(runs, jobs[j].run)
    {
      assert jobs[j].run == r ==> j in RunJobs(jobs, r);
    }
  }

  // ---- One job changes its status ----

  ghost predicate Touched(b: Job, c: Job) {
    b.run == c.run && b.deps == c.deps && b.role == c.role
  }

  lemma DepsDoneAgrees(jobs: Jobs, t: Jobs, deps: seq<JobId>)
    requires forall d :: d in deps ==>
      (d in jobs && jobs[d].status.Completed? <==> d in t && t[d].status.Completed?)
    ensures DepsDone(jobs, deps) <==> DepsDone(t, deps)
  {
  }

  // Changes between statuses other than Pending and Completed are invisible to dependents.
  ghost predicate AllTouched(jobs: Jobs, t: Jobs) {
    && jobs.Keys == t.Keys
    && (forall j :: j in jobs ==>
          && Touched(jobs[j], t[j]) && AttemptOk(t[j])
          && t[j].status.Pending? == jobs[j].status.Pending?
          && t[j].status.Completed? == jobs[j].status.Completed?)
  }

  lemma TouchDeps(jobs: Jobs, t: Jobs)
    requires DepsExact(jobs) && AllTouched(jobs, t)
    ensures DepsExact(t)
  {
    forall k | k in jobs
      ensures DepsDone(t, jobs[k].deps) <==> DepsDone(jobs, jobs[k].deps)
    {
      DepsDoneAgrees(jobs, t, jobs[k].deps);
    }
  }

  lemma TouchRecords(runs: Runs, after: Runs, jobs: Jobs, t: Jobs)
    requires RecordsOk(runs, jobs) && Advances(runs, after) && AllTouched(jobs, t)
    ensures RecordsOk(after, t)
  {
    TouchDeps(jobs, t);
  }

  // ---- Submitting, dequeuing and starting ----

  lemma SubmitDeps(runs: Runs, jobs: Jobs, root: JobId, b: Job)
    requires RefsOk(runs, jobs) && DepsExact(jobs) && root !in jobs
    requires b.deps == [] && !b.status.Pending?
    ensures DepsExact(jobs[root := b])
  {
    forall k | k in jobs
      ensures DepsDone(jobs[root := b], jobs[k].deps) <==> DepsDone(jobs, jobs[k].deps)
    {
      DepsDoneAgrees(jobs, jobs[root := b], jobs[k].deps);
    }
  }

  lemma SubmitRecords(runs: Runs, after: Runs, jobs: Jobs, root: JobId, b: Job)
    requires RecordsOk(runs, jobs) && root !in jobs && AttemptOk(b)
    requires b.run !in runs && b.deps == [] && !b.status.Pending?
    requires b.run in after && after == runs[b.run := after[b.run]] && after[b.run].root == root && b.role.Planner?
    ensures RecordsOk(after, jobs[root := b])
  {
    SubmitDeps(runs, jobs, root, b);
  }

  lemma SubmitSchedule(s: Engine, r: RunId, root: JobId, task: string)
    requires QueueOk(s.runs, s.jobs, s.queue) && SlotsOk(s.jobs, s.active) && RefsOk(s.runs, s.jobs)
    requires r !in s.runs && root !in s.jobs
    ensures var t := Submit(s, r, root, task);
      QueueOk(t.runs, t.jobs, t.queue) && SlotsOk(t.jobs, t.active)
  {
    DistinctConcat(s.queue, [root]);
  }

  lemma SubmitKeeps(s: Engine, r: RunId, root: JobId, task: string)
    requires Inv(s) && r !in s.runs && root !in s.jobs
    ensures Inv(Submit(s, r, root, task))
  {
    var t := Submit(s, r, root, task);
    SubmitRecords(s.runs, t.runs, s.jobs, root, t.jobs[root]);
    SubmitSchedule(s, r, root, task);
  }

  ghost function Spawn(s: Engine, now: int): Engine {
    var (t, j) := NextJob(s);
    if j.Some? then MarkRunning(t, j.value, now) else t
  }

  // What the daemon's dequeue-and-start does when a job is waiting and a slot is free.
  ghost function Started(s: Engine, j: JobId, now: int): Engine
    requires s.queue != [] && j in s.jobs
  {
    s.(queue := s.queue[1..],
       active := s.active[j := s.jobs[j].run],
       jobs := s.jobs[j := s.jobs[j].(status := JobStatus.Running, attempt := s.jobs[j].attempt + 1)],
       beats := s.beats[j := now],
       runs := StartRun(s.runs, s.jobs[j].run))
  }

  lemma SpawnShape(s: Engine, now: int)
    ensures Spawn(s, now) ==
      if |s.active| >= s.cap || s.queue == [] then s
      else if s.queue[0] in s.jobs then Started(s, s.queue[0], now)
      else s.(queue := s.queue[1..])
  {
  }

  lemma StartedQueue(runs: Runs, after: Runs, jobs: Jobs, queue: seq<JobId>, b: Job)
    requires QueueOk(runs, jobs, queue) && queue != [] && forall x :: Live(after, x) <==> Live(runs, x)
    requires queue[0] in jobs && b.status.Running?
    ensures QueueOk(after, jobs[queue[0] := b], queue[1..])
  {
    var j := queue[0];
    assert queue == [j] + queue[1..];
    DistinctParts([j], queue[1..]);
    assert forall k :: k in queue[1..] <==> k in queue && k != j;
  }

  lemma StartedSlots(jobs: Jobs, active: map<JobId, RunId>, j: JobId, b: Job)
    requires SlotsOk(jobs, active) && b.status.Running?
    ensures SlotsOk(jobs[j := b], active[j := b.run])
  {
  }

  lemma StartedSchedule(s: Engine, j: JobId, now: int)
    requires QueueOk(s.runs, s.jobs, s.queue) && SlotsOk(s.jobs, s.active) && CapOk(s)
    requires |s.active| < s.cap && s.queue != [] && j == s.queue[0] && j in s.jobs
    ensures var t := Started(s, j, now);
      QueueOk(t.runs, t.jobs, t.queue) && SlotsOk(t.jobs, t.active) && CapOk(t)
  {
    hide QueueOk, SlotsOk;
    var t := Started(s, j, now);
    StartRunAdvances(s.runs, s.jobs[j].run);
    StartedQueue(s.runs, t.runs, s.jobs, s.queue, t.jobs[j]);
    StartedSlots(s.jobs, s.active, j, t.jobs[j]);
    assert t.active.Keys == s.active.Keys + {j};
  }

  lemma StartedKeeps(s: Engine, j: JobId, now: int)
    requires Inv(s) && |s.active| < s.cap && s.queue != [] && j == s.queue[0] && j in s.jobs
    requires s.jobs[j].status.Ready?
    ensures Inv(Started(s, j, now))
  {
    hide RefsOk, AttemptsOk, DepsExact, RootsOk, QueueOk, SlotsOk, AllTouched;
    var t := Started(s, j, now);
    StartRunAdvances(s.runs, s.jobs[j].run);
    StartedTouches(s.jobs, j);
    TouchRecords(s.runs, t.runs, s.jobs, t.jobs);
    StartedSchedule(s, j, now);
  }

  lemma StartedTouches(jobs: Jobs, j: JobId)
    requires AttemptsOk(jobs) && j in jobs && jobs[j].status.Ready?
    ensures AllTouched(jobs, jobs[j := jobs[j].(status := JobStatus.Running, attempt := jobs[j].attempt + 1)])
  {
    assert AttemptOk(jobs[j]);
    forall k | k in jobs && k != j ensures AttemptOk(jobs[k]) {
    }
  }

  lemma SpawnKeeps(s: Engine, now: int)
    requires Inv(s)
    ensures Inv(Spawn(s, now))
  {
    SpawnShape(s, now);
    if |s.active| < s.cap && s.queue != [] {
      assert s.queue[0] in s.queue;
      StartedKeeps(s, s.queue[0], now);
    }
  }

  // ---- Failing ----

  lemma FailQueue(runs: Runs, after: Runs, jobs: Jobs, queue: seq<JobId>, j: JobId, b: Job)
    requires QueueOk(runs, jobs, queue) && NoneFreed(runs, after, jobs[j := b])
    requires j in jobs && !jobs[j].status.Ready? && b.run == jobs[j].run
    ensures QueueOk(after, jobs[j := b], if b.status.Ready? then queue + [j] else queue)
  {
    DistinctConcat(queue, [j]);
  }

  lemma FailSlots(jobs: Jobs, active: map<JobId, RunId>, j: JobId, b: Job)
    requires SlotsOk(jobs, active) && !b.status.Running?
    ensures SlotsOk(jobs[j := b], active - {j})
  {
  }

  lemma FreeKeepsCap(s: Engine, t: Engine, j: JobId)
    requires CapOk(s) && t.cap == s.cap && t.active == s.active - {j} && t.beats == s.beats - {j}
    ensures CapOk(t)
  {
    SubsetSize(t.active.Keys, s.active.Keys);
  }

  lemma FailRecords(s: Engine, j: JobId, note: Note)
    requires RecordsOk(s.runs, s.jobs) && j in s.active && j in s.jobs && s.jobs[j].status.Running?
    ensures RecordsOk(MarkFailed(s, j, note).runs, MarkFailed(s, j, note).jobs)
    ensures Advances(s.runs, MarkFailed(s, j, note).runs)
    ensures NoneFreed(s.runs, MarkFailed(s, j, note).runs, MarkFailed(s, j, note).jobs)
  {
    hide RefsOk, DepsExact, RootsOk, CheckCompletion;
    var jobs := s.jobs[j := Failing(s.jobs[j], note)];
    var after := CheckCompletion(s.runs, jobs, s.active[j]);
    CheckCompletionAdvances(s.runs, jobs, s.active[j]);
    TouchRecords(s.runs, after, s.jobs, jobs);
  }

  lemma FailKeeps(s: Engine, j: JobId, note: Note)
    requires Inv(s) && j in s.active
    ensures Inv(MarkFailed(s, j, note))
    ensures Advances(s.runs, MarkFailed(s, j, note).runs)
  {
    hide RecordsOk, QueueOk, CapOk;
    var t := MarkFailed(s, j, note);
    FailRecords(s, j, note);
    FailQueue(s.runs, t.runs, s.jobs, s.queue, j, Failing(s.jobs[j], note));
    FailSlots(s.jobs, s.active, j, Failing(s.jobs[j], note));
    FreeKeepsCap(s, t, j);
  }

  // ---- Completing ----

  lemma DepsDoneMonotone(jobs: Jobs, t: Jobs, deps: seq<JobId>)
    requires DepsDone(jobs, deps)
    requires forall d :: d in jobs && jobs[d].status.Completed? ==> d in t && t[d].status.Completed?
    ensures DepsDone(t, deps)
  {
  }

  lemma CompleteDeps(runs: Runs, jobs: Jobs, j: JobId, outputs: seq<ArtifactId>)
    requires RefsOk(runs, jobs) && DepsExact(jobs)
    requires j in jobs && jobs[j].status.Running?
    ensures DepsExact(Promote(Completing(jobs, j, outputs), jobs[j].run))
  {
    var done, r := Completing(jobs, j, outputs), jobs[j].run;
    var t := Promote(done, r);
    forall k | k in t
      ensures t[k].status.Pending? <==> !DepsDone(t, t[k].deps)
    {
      assert jobs[k].deps == done[k].deps == t[k].deps;
      DepsDoneAgrees(done, t, jobs[k].deps);
      if DepsDone(jobs, jobs[k].deps) {
        DepsDoneMonotone(jobs, done, jobs[k].deps);
      }
      if jobs[k].run != r {
        DepsDoneAgrees(jobs, done, jobs[k].deps);
      }
    }
  }

  lemma CompleteTouches(jobs: Jobs, j: JobId, outputs: seq<ArtifactId>, r: RunId)
    requires AttemptsOk(jobs) && j in jobs
    ensures var t := Promote(Completing(jobs, j, outputs), r);
      t.Keys == jobs.Keys && AttemptsOk(t) && forall k :: k in jobs ==> Touched(jobs[k], t[k])
  {
    var t := Promote(Completing(jobs, j, outputs), r);
    forall k | k in t ensures AttemptOk(t[k]) && Touched(jobs[k], t[k]) {
      assert AttemptOk(jobs[k]);
    }
  }

  lemma CompleteRefs(runs: Runs, after: Runs, jobs: Jobs, t: Jobs)
    requires RefsOk(runs, jobs) && RootsOk(runs, jobs) && Advances(runs, after)
    requires t.Keys == jobs.Keys && forall k :: k in jobs ==> Touched(jobs[k], t[k])
    ensures RefsOk(after, t) && RootsOk(after, t)
  {
  }

  lemma CompleteRecords(runs: Runs, after: Runs, jobs: Jobs, j: JobId, outputs: seq<ArtifactId>)
    requires RecordsOk(runs, jobs) && Advances(runs, after)
    requires j in jobs && jobs[j].status.Running?
    ensures RecordsOk(after, Promote(Completing(jobs, j, outputs), jobs[j].run))
  {
    hide RefsOk, AttemptsOk, DepsExact, RootsOk;
    CompleteDeps(runs, jobs, j, outputs);
    CompleteTouches(jobs, j, outputs, jobs[j].run);
    CompleteRefs(runs, after, jobs, Promote(Completing(jobs, j, outputs), jobs[j].run));
  }

  lemma CompleteQueue(runs: Runs, after: Runs, jobs: Jobs, queue: seq<JobId>, j: JobId,
                      outputs: seq<ArtifactId>, promoted: seq<JobId>)
    requires QueueOk(runs, jobs, queue)
    requires j in jobs && jobs[j].status.Running?
    requires NoneFreed(runs, after, Promote(Completing(jobs, j, outputs), jobs[j].run))
    requires Enumerates(promoted, Promotable(Completing(jobs, j, outputs), jobs[j].run))
    ensures QueueOk(after, Promote(Completing(jobs, j, outputs), jobs[j].run), queue + promoted)
  {
    forall x | x in queue ensures x !in promoted {
      assert x != j;
    }
    DistinctConcat(queue, promoted);
  }

  lemma CompleteSlots(jobs: Jobs, active: map<JobId, RunId>, j: JobId, outputs: seq<ArtifactId>)
    requires SlotsOk(jobs, active) && j in jobs
    ensures SlotsOk(Promote(Completing(jobs, j, outputs), jobs[j].run), active - {j})
  {
  }

  lemma CompleteKeeps(s: Engine, j: JobId, outputs: seq<ArtifactId>, promoted: seq<JobId>)
    requires Inv(s) && j in s.active && Enumerates(promoted, PromotedBy(s, j, outputs))
    ensures Inv(MarkCompleted(s, j, outputs, promoted))
    ensures Advances(s.runs, MarkCompleted(s, j, outputs, promoted).runs)
  {
    hide RecordsOk, QueueOk, CapOk, Promotable;
    var t := MarkCompleted(s, j, outputs, promoted);
    CheckCompletionAdvances(s.runs, t.jobs, s.active[j]);
    CompleteRecords(s.runs, t.runs, s.jobs, j, outputs);
    CompleteQueue(s.runs, t.runs, s.jobs, s.queue, j, outputs, promoted);
    CompleteSlots(s.jobs, s.active, j, outputs);
    FreeKeepsCap(s, t, j);
  }

  lemma OnlyJobTerminal(runs: Runs, jobs: Jobs, t: Jobs, j: JobId)
    requires RootsOk(runs, jobs) && j in jobs && (Undecided(runs, jobs[j].run) || CancelledRun(runs, jobs[j].run))
    requires t.Keys == jobs.Keys && Terminal(t[j].status) && forall k :: k in jobs ==> t[k].run == jobs[k].run
    ensures AllTerminal(t, jobs[j].run)
  {
    assert j in RunJobs(t, jobs[j].run);
    assert forall k :: k in RunJobs(t, jobs[j].run) ==> k == j;
  }

  lemma CompleteJobs(jobs: Jobs, j: JobId, outputs: seq<ArtifactId>, r: RunId)
    requires j in jobs
    ensures var t := Promote(Completing(jobs, j, outputs), r);
      t.Keys == jobs.Keys && t[j].status.Completed? && forall k :: k in jobs ==> t[k].run == jobs[k].run
  {
  }

  // Completing a job decides its run: undecided and cancelled ones have one job.
  lemma CompleteDecides(s: Engine, j: JobId, outputs: seq<ArtifactId>, promoted: seq<JobId>)
    requires Inv(s) && j in s.active
    ensures !Undecided(MarkCompleted(s, j, outputs, promoted).runs, s.active[j])
    ensures Live(MarkCompleted(s, j, outputs, promoted).runs, s.active[j])
  {
    hide AttemptsOk, DepsExact, QueueOk, CapOk, Promote, AllTerminal;
    var t, r := MarkCompleted(s, j, outputs, promoted), s.active[j];
    assert j in s.jobs && r == s.jobs[j].run && r in s.runs;
    CheckCompletionAdvances(s.runs, t.jobs, r);
    CompleteJobs(s.jobs, j, outputs, r);
    if Undecided(s.runs, r) || CancelledRun(s.runs, r) {
      OnlyJobTerminal(s.runs, s.jobs, t.jobs, j);
    }
  }

  // ---- New jobs in a decided run ----

  // The jobs of t that are not in jobs: fresh, of run r, waiting only for one another.
  ghost predicate Extended(jobs: Jobs, t: Jobs, r: RunId) {
    && jobs.Keys <= t.Keys
    && (forall j :: j in jobs ==> t[j] == jobs[j])
    && (forall j :: j in t && j !in jobs ==>
          && t[j].run == r && AttemptOk(t[j])
          && t[j].status == (if t[j].deps == [] then JobStatus.Ready else JobStatus.Pending)
          && (forall d :: d in t[j].deps ==> d in t && d != j && d !in jobs))
  }

  lemma ExtendRefs(runs: Runs, jobs: Jobs, t: Jobs, r: RunId)
    requires RefsOk(runs, jobs) && Extended(jobs, t, r) && r in runs
    ensures RefsOk(runs, t)
  {
  }

  lemma ExtendDeps(runs: Runs, jobs: Jobs, t: Jobs, r: RunId)
    requires RefsOk(runs, jobs) && DepsExact(jobs) && Extended(jobs, t, r)
    ensures DepsExact(t)
  {
    forall k | k in t
      ensures t[k].status.Pending? <==> !DepsDone(t, t[k].deps)
    {
      if k in jobs {
        DepsDoneAgrees(jobs, t, jobs[k].deps);
      } else if t[k].deps != [] {
        assert t[k].deps[0] in t[k].deps;
      }
    }
  }

  lemma ExtendRecords(runs: Runs, jobs: Jobs, t: Jobs, r: RunId)
    requires RecordsOk(runs, jobs) && Extended(jobs, t, r) && Live(runs, r) && !Undecided(runs, r)
    ensures RecordsOk(runs, t)
  {
    ExtendRefs(runs, jobs, t, r);
    ExtendDeps(runs, jobs, t, r);
  }

  lemma ExtendSchedule(runs: Runs, jobs: Jobs, t: Jobs, r: RunId, queue: seq<JobId>, ready: seq<JobId>,
                       active: map<JobId, RunId>)
    requires QueueOk(runs, jobs, queue) && SlotsOk(jobs, active) && Extended(jobs, t, r) && Live(runs, r)
    requires Enumerates(ready, set j | j in t && j !in jobs && t[j].status.Ready?)
    ensures QueueOk(runs, t, queue + ready) && SlotsOk(t, active)
  {
    assert forall x :: x in queue ==> x in jobs;
    DistinctConcat(queue, ready);
  }
}
