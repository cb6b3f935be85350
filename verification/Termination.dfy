/** Retries and revisions come to an end: without new submissions, and without
    plans that ask for planners, the jobs stop changing. */
module Termination {
  import opened Types
  import opened Collections
  import opened Planner
  import opened Materialization
  import opened EngineSpec
  import opened EngineInv
  import opened EngineLife
  import opened Failures
  import opened Daemon
  import opened DaemonFrame
  import opened Progress
  import Channels

  // ---- The measure ----

  ghost function Left(b: Job): nat {
    if b.attempt < b.maxAttempts then b.maxAttempts - b.attempt else 0
  }

  // What a reviewer can still ask for: a coder and a reviewer per round left,
  // each worth its attempts, twice over, and one more.
  ghost function Revisions(maxRevisions: nat, b: Job): nat {
    if b.role.Reviewer? && b.deps != [] && b.round < maxRevisions
    then (4 * MAX_ATTEMPTS + 2) * (maxRevisions - b.round)
    else 0
  }

  // A job that is not finished is worth its attempts and rounds, and what being
  // Running and being cancelled with its run can still change about it.
  ghost function Weight(maxRevisions: nat, runs: Runs, b: Job): nat {
    if Terminal(b.status) then 0
    else
      2 * Left(b) + Revisions(maxRevisions, b)
      + (if b.status.Running? then 1 else 0) + (if Undecided(runs, b.run) then 1 else 0)
  }

  // Planners, and the reviewers of planners: what may bring more planners.
  ghost predicate Planning(jobs: Jobs, j: JobId)
    requires j in jobs
  {
    || jobs[j].role.Planner?
    || (&& jobs[j].role.Reviewer? && jobs[j].deps != []
        && jobs[j].deps[0] in jobs && jobs[jobs[j].deps[0]].role.Planner?)
  }

  // The weights of the jobs that plan, or of those that do not.
  ghost function Weights(maxRevisions: nat, runs: Runs, jobs: Jobs, planning: bool): map<JobId, nat> {
    map j | j in jobs :: if Planning(jobs, j) == planning then Weight(maxRevisions, runs, jobs[j]) else 0
  }

  // Work left for planning, which may bring any amount of other work, comes first.
  ghost function PlannerWork(maxRevisions: nat, s: Engine): nat {
    Sum(Weights(maxRevisions, s.runs, s.jobs, true))
  }

  ghost function OtherWork(maxRevisions: nat, s: Engine): nat {
    Sum(Weights(maxRevisions, s.runs, s.jobs, false))
  }

  ghost predicate LessWork(maxRevisions: nat, t: Engine, s: Engine) {
    || PlannerWork(maxRevisions, t) < PlannerWork(maxRevisions, s)
    || (&& PlannerWork(maxRevisions, t) == PlannerWork(maxRevisions, s)
        && OtherWork(maxRevisions, t) < OtherWork(maxRevisions, s))
  }

  ghost predicate NoMoreWork(maxRevisions: nat, t: Engine, s: Engine) {
    || LessWork(maxRevisions, t, s)
    || (&& PlannerWork(maxRevisions, t) == PlannerWork(maxRevisions, s)
        && OtherWork(maxRevisions, t) == OtherWork(maxRevisions, s))
  }

  // ---- Steps that bring no new jobs ----

  // No job gets heavier; if any job changes at all, one gets lighter.
  ghost predicate NoHeavier(maxRevisions: nat, runs: Runs, jobs: Jobs, after: Runs, t: Jobs) {
    && t.Keys == jobs.Keys
    && (forall j :: j in jobs ==>
          && t[j].role == jobs[j].role && t[j].deps == jobs[j].deps
          && Weight(maxRevisions, after, t[j]) <= Weight(maxRevisions, runs, jobs[j]))
  }

  ghost predicate Lighter(maxRevisions: nat, runs: Runs, jobs: Jobs, after: Runs, t: Jobs) {
    exists j :: j in jobs && j in t && Weight(maxRevisions, after, t[j]) < Weight(maxRevisions, runs, jobs[j])
  }

  ghost predicate Descends(maxRevisions: nat, s: Engine, t: Engine) {
    && NoHeavier(maxRevisions, s.runs, s.jobs, t.runs, t.jobs)
    && (t.jobs == s.jobs || Lighter(maxRevisions, s.runs, s.jobs, t.runs, t.jobs))
  }

  lemma NoHeavierTransitive(maxRevisions: nat, s: Engine, t: Engine, u: Engine)
    requires NoHeavier(maxRevisions, s.runs, s.jobs, t.runs, t.jobs)
    requires NoHeavier(maxRevisions, t.runs, t.jobs, u.runs, u.jobs)
    ensures NoHeavier(maxRevisions, s.runs, s.jobs, u.runs, u.jobs)
    ensures Lighter(maxRevisions, s.runs, s.jobs, t.runs, t.jobs) || Lighter(maxRevisions, t.runs, t.jobs, u.runs, u.jobs)
      ==> Lighter(maxRevisions, s.runs, s.jobs, u.runs, u.jobs)
  {
    hide Weight;
    forall j | j in s.jobs
      ensures Weight(maxRevisions, u.runs, u.jobs[j]) <= Weight(maxRevisions, t.runs, t.jobs[j])
                <= Weight(maxRevisions, s.runs, s.jobs[j])
    {
    }
  }

  lemma DescendsTransitive(maxRevisions: nat, s: Engine, t: Engine, u: Engine)
    requires Descends(maxRevisions, s, t) && Descends(maxRevisions, t, u)
    ensures Descends(maxRevisions, s, u)
  {
    hide NoHeavier, Lighter;
    NoHeavierTransitive(maxRevisions, s, t, u);
  }

  lemma SamePlanning(jobs: Jobs, t: Jobs, j: JobId)
    requires j in jobs && t.Keys == jobs.Keys
    requires forall k :: k in jobs ==> t[k].role == jobs[k].role && t[k].deps == jobs[k].deps
    ensures Planning(t, j) == Planning(jobs, j)
  {
  }

  lemma NoHeavierSums(maxRevisions: nat, s: Engine, t: Engine, planning: bool)
    requires NoHeavier(maxRevisions, s.runs, s.jobs, t.runs, t.jobs)
    ensures Sum(Weights(maxRevisions, t.runs, t.jobs, planning)) <= Sum(Weights(maxRevisions, s.runs, s.jobs, planning))
  {
    hide Weight, Planning, Sum;
    forall j | j in s.jobs ensures Planning(t.jobs, j) == Planning(s.jobs, j) {
      SamePlanning(s.jobs, t.jobs, j);
    }
    SumMonotone(Weights(maxRevisions, t.runs, t.jobs, planning), Weights(maxRevisions, s.runs, s.jobs, planning));
  }

  lemma LighterSum(maxRevisions: nat, s: Engine, t: Engine, j: JobId)
    requires NoHeavier(maxRevisions, s.runs, s.jobs, t.runs, t.jobs) && j in s.jobs
    requires Weight(maxRevisions, t.runs, t.jobs[j]) < Weight(maxRevisions, s.runs, s.jobs[j])
    ensures Sum(Weights(maxRevisions, t.runs, t.jobs, Planning(s.jobs, j)))
          < Sum(Weights(maxRevisions, s.runs, s.jobs, Planning(s.jobs, j)))
  {
    hide Weight, Planning, Sum;
    forall k | k in s.jobs ensures Planning(t.jobs, k) == Planning(s.jobs, k) {
      SamePlanning(s.jobs, t.jobs, k);
    }
    var p := Planning(s.jobs, j);
    SumDrops(Weights(maxRevisions, t.runs, t.jobs, p), Weights(maxRevisions, s.runs, s.jobs, p), j);
  }

  lemma DescentIsLessWork(maxRevisions: nat, s: Engine, t: Engine)
    requires Descends(maxRevisions, s, t)
    ensures NoMoreWork(maxRevisions, t, s)
    ensures t.jobs != s.jobs ==> LessWork(maxRevisions, t, s)
  {
    hide Weight, Weights, Sum, Planning;
    NoHeavierSums(maxRevisions, s, t, true);
    NoHeavierSums(maxRevisions, s, t, false);
    if t.jobs != s.jobs {
      var j :| j in s.jobs && Weight(maxRevisions, t.runs, t.jobs[j]) < Weight(maxRevisions, s.runs, s.jobs[j]);
      LighterSum(maxRevisions, s, t, j);
    }
  }

  lemma SameJobsDescend(maxRevisions: nat, s: Engine, t: Engine)
    requires t.jobs == s.jobs && RunsEvolve(s.runs, t.runs) && RefsOk(s.runs, s.jobs)
    ensures Descends(maxRevisions, s, t)
  {
  }

  lemma StaysDecided(s: Engine, t: Engine, j: JobId)
    requires RefsOk(s.runs, s.jobs) && RunsEvolve(s.runs, t.runs) && j in s.jobs
    ensures Undecided(t.runs, s.jobs[j].run) ==> Undecided(s.runs, s.jobs[j].run)
  {
  }

  // One job gets lighter; the others keep their weight.
  lemma OneDescends(maxRevisions: nat, s: Engine, t: Engine, j: JobId)
    requires RefsOk(s.runs, s.jobs) && RunsEvolve(s.runs, t.runs)
    requires t.jobs.Keys == s.jobs.Keys && j in s.jobs
    requires forall k :: k in s.jobs && k != j ==>
      t.jobs[k] == s.jobs[k] || (s.jobs[k].status.Pending? && t.jobs[k] == s.jobs[k].(status := JobStatus.Ready))
    requires t.jobs[j].role == s.jobs[j].role && t.jobs[j].deps == s.jobs[j].deps
    requires Weight(maxRevisions, t.runs, t.jobs[j]) < Weight(maxRevisions, s.runs, s.jobs[j])
    ensures Descends(maxRevisions, s, t)
  {
    hide RefsOk, RunsEvolve, Undecided;
    forall k | k in s.jobs
      ensures t.jobs[k].role == s.jobs[k].role && t.jobs[k].deps == s.jobs[k].deps
      ensures Weight(maxRevisions, t.runs, t.jobs[k]) <= Weight(maxRevisions, s.runs, s.jobs[k])
    {
      StaysDecided(s, t, k);
    }
  }

  // A Running job that is completed or failed, or a queued one that is started.
  lemma FailingIsLighter(maxRevisions: nat, runs: Runs, after: Runs, b: Job, c: Job, note: Note)
    requires b.status.Running? && (Undecided(after, b.run) ==> Undecided(runs, b.run))
    requires c == Failing(b, note) || c.status.Completed?
             || (exists o :: c == Failing(b.(status := JobStatus.Completed, outputs := o), note))
    ensures Weight(maxRevisions, after, c) < Weight(maxRevisions, runs, b)
  {
  }

  lemma StartingIsLighter(maxRevisions: nat, runs: Runs, after: Runs, b: Job)
    requires b.status.Ready? && b.attempt < b.maxAttempts && (Undecided(after, b.run) ==> Undecided(runs, b.run))
    ensures Weight(maxRevisions, after, b.(status := JobStatus.Running, attempt := b.attempt + 1))
          < Weight(maxRevisions, runs, b)
  {
  }

  lemma FailDescends(maxRevisions: nat, s: Engine, j: JobId, note: Note)
    requires Inv(s) && j in s.active
    ensures Descends(maxRevisions, s, MarkFailed(s, j, note))
  {
    hide AttemptsOk, DepsExact, RootsOk, QueueOk, CapOk, Descends, Weight, CheckCompletion;
    var t := MarkFailed(s, j, note);
    FailEvolves(s, j, note);
    assert s.jobs[j].status.Running? && s.jobs[j].run in s.runs;
    FailingIsLighter(maxRevisions, s.runs, t.runs, s.jobs[j], t.jobs[j], note);
    OneDescends(maxRevisions, s, t, j);
  }

  lemma {:induction false} FailAllDescends(maxRevisions: nat, s: Engine, order: seq<JobId>, note: Note)
    requires Inv(s) && Distinct(order) && Elements(order) <= s.active.Keys
    ensures Descends(maxRevisions, s, FailAll(s, order, note))
  {
    hide RecordsOk, QueueOk, SlotsOk, CapOk, MarkFailed, Descends;
    if order == [] {
      SameJobsDescend(maxRevisions, s, s) by { assert RecordsOk(s.runs, s.jobs); InvRefs(s); }
    } else {
      var n := |order| - 1;
      Last(order, n);
      FailAllDescends(maxRevisions, s, order[..n], note);
      FailAllKeeps(s, order[..n], note);
      FailDescends(maxRevisions, FailAll(s, order[..n], note), order[n], note);
      DescendsTransitive(maxRevisions, s, FailAll(s, order[..n], note), FailAll(s, order, note));
    }
  }

  lemma InvRefs(s: Engine)
    requires Inv(s)
    ensures RefsOk(s.runs, s.jobs)
  {
  }

  lemma CompleteDescends(maxRevisions: nat, s: Engine, c: Completion)
    requires Inv(s) && CompletionOk(s, c)
    ensures Descends(maxRevisions, s, Complete(s, c))
  {
    hide AttemptsOk, DepsExact, RootsOk, QueueOk, CapOk, Descends, Weight, MarkCompleted;
    var t := Complete(s, c);
    CompleteEvolves(s, c);
    CompleteSpec(s, c);
    assert s.jobs[c.job].status.Running? && s.jobs[c.job].run in s.runs;
    FailingIsLighter(maxRevisions, s.runs, t.runs, s.jobs[c.job], t.jobs[c.job], PlanRejected);
    OneDescends(maxRevisions, s, t, c.job);
  }

  lemma {:induction false} SweepDescends(maxRevisions: nat, s: Engine, c: ChannelId, participants: seq<JobId>,
                                         swept: seq<Completion>)
    requires Inv(s) && SweepOk(s, c, participants, swept)
    ensures Descends(maxRevisions, s, Sweep(s, swept))
    decreases |participants|
  {
    hide RecordsOk, QueueOk, CapOk, MarkCompleted, Descends;
    if participants == [] {
      InvRefs(s);
      SameJobsDescend(maxRevisions, s, s);
    } else {
      var rest, p := participants[..|participants| - 1], participants[|participants| - 1];
      if SweepOk(s, c, rest, swept) && !Finished(Sweep(s, swept), c, p) {
        SweepDescends(maxRevisions, s, c, rest, swept);
      } else {
        var t, last := Sweep(s, swept[..|swept| - 1]), swept[|swept| - 1];
        SweepDescends(maxRevisions, s, c, rest, swept[..|swept| - 1]);
        SweepKeeps(s, c, rest, swept[..|swept| - 1]);
        assert p in t.active;
        CompleteDescends(maxRevisions, t, last);
        DescendsTransitive(maxRevisions, s, t, Complete(t, last));
      }
    }
  }

  lemma RejectDescends(maxRevisions: nat, s: Engine, c: Completion)
    requires Inv(s) && CompletionOk(s, c)
    ensures Descends(maxRevisions, s, MarkFailed(Complete(s, c), c.job, PlanRejected))
  {
    hide AttemptsOk, DepsExact, RootsOk, QueueOk, CapOk, Descends, Weight, MarkCompleted, JobsEvolve, RunsEvolve;
    var t := Complete(s, c);
    var u := MarkFailed(t, c.job, PlanRejected);
    RejectEvolves(s, c);
    CompleteSpec(s, c);
    var b := s.jobs[c.job];
    assert b.status.Running? && b.run in s.runs;
    assert u.jobs[c.job] == Failing(b.(status := JobStatus.Completed, outputs := c.outputs), PlanRejected);
    StaysDecided(s, u, c.job);
    FailingIsLighter(maxRevisions, s.runs, u.runs, b, u.jobs[c.job], PlanRejected);
    OneDescends(maxRevisions, s, u, c.job);
  }

  lemma SpawnDescends(maxRevisions: nat, s: Engine, now: int)
    requires Inv(s)
    ensures Descends(maxRevisions, s, Spawn(s, now))
  {
    hide Inv, Descends, Weight, Spawn, DepsDone, JobsEvolve, RunsEvolve, StartRun;
    var t := Spawn(s, now);
    InvRefs(s);
    SpawnEvolves(s, now);
    SpawnShape(s, now);
    if Picked(s).Some? {
      StartedIsUnblocked(s, now);
      var j := Picked(s).value;
      StaysDecided(s, t, j);
      StartingIsLighter(maxRevisions, s.runs, t.runs, s.jobs[j]);
      OneDescends(maxRevisions, s, t, j);
    } else {
      SameJobsDescend(maxRevisions, s, t);
    }
  }

  lemma RenotedDescends(maxRevisions: nat, s: Engine, t: Engine, again: set<JobId>, note: Note)
    requires Descends(maxRevisions, s, t)
    ensures NoHeavier(maxRevisions, s.runs, s.jobs, t.runs, Renoted(t.jobs, again, note))
  {
    hide Lighter, Weight;
    var u := Renoted(t.jobs, again, note);
    forall j | j in t.jobs
      ensures u[j].role == t.jobs[j].role && u[j].deps == t.jobs[j].deps
      ensures Weight(maxRevisions, t.runs, u[j]) == Weight(maxRevisions, t.runs, t.jobs[j])
    {
      NoteWeighsNothing(maxRevisions, t.runs, t.jobs[j], note);
    }
  }

  lemma NoteWeighsNothing(maxRevisions: nat, runs: Runs, b: Job, note: Note)
    ensures Weight(maxRevisions, runs, b.(error := Some(note))) == Weight(maxRevisions, runs, b)
  {
  }

  lemma NoHeavierDescends(maxRevisions: nat, s: Engine, u: Engine, v: Engine)
    requires NoHeavier(maxRevisions, s.runs, s.jobs, u.runs, u.jobs) && Descends(maxRevisions, u, v) && v.jobs != u.jobs
    ensures Descends(maxRevisions, s, v)
  {
    hide NoHeavier, Lighter;
    NoHeavierTransitive(maxRevisions, s, u, v);
  }

  lemma FailureChanges(u: Engine, j: JobId, note: Note)
    requires SlotsOk(u.jobs, u.active) && j in u.active
    ensures MarkFailed(u, j, note).jobs != u.jobs
  {
    assert u.jobs[j].status.Running?;
    assert !MarkFailed(u, j, note).jobs[j].status.Running?;
  }

  lemma OnFailedDescends(maxRevisions: nat, s: Engine, j: JobId, note: Note, cs: seq<ChannelId>)
    requires Inv(s) && Enabled(s, JobFailed(j, note, cs))
    ensures Descends(maxRevisions, s, OnFailed(s, j, note, cs))
  {
    hide RecordsOk, QueueOk, CapOk, Descends, FailAll, MarkFailed, FailPeers, KillsOk, NoHeavier, Renoted;
    var kills, again := FailureShape(s, j, cs);
    var peer := Note.PeerFailed(j);
    var killed, u := FailAll(s, kills, peer), FailPeers(s, j, cs);
    FailAllKeeps(s, kills, peer);
    FailAllDescends(maxRevisions, s, kills, peer);
    RenotedKeeps(killed, again, peer);
    RenotedDescends(maxRevisions, s, killed, again, peer);
    SameScheduleInv(killed.(jobs := Renoted(killed.jobs, again, peer)), u);
    FailDescends(maxRevisions, u, j, note);
    FailureChanges(u, j, note);
    NoHeavierDescends(maxRevisions, s, u, MarkFailed(u, j, note));
  }

  lemma CancelDescends(maxRevisions: nat, s: Engine, r: RunId, order: seq<JobId>)
    requires Inv(s) && Enabled(s, Cancel(r, order))
    ensures Descends(maxRevisions, s, CancelRun(s, r, order))
  {
    hide RefsOk, DepsExact, QueueOk, CapOk, RootsOk, CancelRun;
    if Undecided(s.runs, r) {
      CancelSpec(s, r, order);
      CancelledDescends(maxRevisions, s, CancelRun(s, r, order), r);
    } else {
      assert CancelRun(s, r, order) == s by { RefusedCancel(s, r, order); }
      InvRefs(s);
      SameJobsDescend(maxRevisions, s, s);
    }
  }

  lemma RefusedCancel(s: Engine, r: RunId, order: seq<JobId>)
    requires !Undecided(s.runs, r)
    ensures CancelRun(s, r, order) == s
  {
  }

  // A job that is cancelled with its run is lighter for it.
  lemma WithdrawnIsLighter(maxRevisions: nat, runs: Runs, after: Runs, b: Job)
    requires AttemptOk(b) && Undecided(runs, b.run) && CancelledRun(after, b.run) && !Terminal(b.status)
    ensures Weight(maxRevisions, after, Failing(b, CancelledByUser)) < Weight(maxRevisions, runs, b)
  {
  }

  lemma CancelledDescends(maxRevisions: nat, s: Engine, t: Engine, r: RunId)
    requires AttemptsOk(s.jobs) && Undecided(s.runs, r) && EngineLife.Cancelled(s, t, r)
    ensures Descends(maxRevisions, s, t)
  {
    hide AttemptOk, Weight;
    forall j | j in s.jobs
      ensures t.jobs[j].role == s.jobs[j].role && t.jobs[j].deps == s.jobs[j].deps
      ensures if j in Unfinished(s.jobs, r)
              then Weight(maxRevisions, t.runs, t.jobs[j]) < Weight(maxRevisions, s.runs, s.jobs[j])
              else t.jobs[j] == s.jobs[j]
                   && Weight(maxRevisions, t.runs, t.jobs[j]) <= Weight(maxRevisions, s.runs, s.jobs[j])
    {
      if j in Unfinished(s.jobs, r) {
        WithdrawnIsLighter(maxRevisions, s.runs, t.runs, s.jobs[j]);
      } else {
        SpectatorWeighs(maxRevisions, s.runs, t.runs, s.jobs[j]);
      }
    }
    if t.jobs != s.jobs {
      var j :| j in s.jobs && t.jobs[j] != s.jobs[j];
    }
  }

  lemma SpectatorWeighs(maxRevisions: nat, runs: Runs, after: Runs, b: Job)
    requires Undecided(after, b.run) ==> Undecided(runs, b.run)
    ensures Weight(maxRevisions, after, b) <= Weight(maxRevisions, runs, b)
  {
  }

  // What recovery makes of one job, and how much lighter it is.
  lemma RecoveredIsLighter(maxRevisions: nat, s: Engine, after: Runs, j: JobId)
    requires j in s.jobs
    requires Undecided(s.runs, s.jobs[j].run) <==> Undecided(after, s.jobs[j].run)
    ensures var b := s.jobs[j]; var t := Recovered(b);
      && t.run == b.run && t.role == b.role && t.deps == b.deps
      && if b.status.Running? then Weight(maxRevisions, after, t) < Weight(maxRevisions, s.runs, b)
         else t == b && Weight(maxRevisions, after, t) == Weight(maxRevisions, s.runs, b)
  {
    if s.jobs[j].status.Running? {
      FailingIsLighter(maxRevisions, s.runs, after, s.jobs[j], Recovered(s.jobs[j]), ProcessLost);
    } else {
      SameWeight(maxRevisions, s.runs, after, s.jobs[j]);
    }
  }

  // A restart that finds every start recorded.
  lemma RestartDescends(maxRevisions: nat, s: Engine, stored: Records, queue: seq<JobId>)
    requires Behind(stored, s) && stored.jobs == s.jobs
    ensures Descends(maxRevisions, s, Restarted(stored, s.cap, queue))
  {
    hide Weight;
    var t := RestartedJobs(s.jobs);
    forall j | j in s.jobs
      ensures t[j].role == s.jobs[j].role && t[j].deps == s.jobs[j].deps && t[j].run == s.jobs[j].run
      ensures t[j] != s.jobs[j] ==> s.jobs[j].status.Running?
      ensures s.jobs[j].status.Running? ==>
        Weight(maxRevisions, stored.runs, t[j]) < Weight(maxRevisions, s.runs, s.jobs[j])
      ensures !s.jobs[j].status.Running? ==>
        Weight(maxRevisions, stored.runs, t[j]) == Weight(maxRevisions, s.runs, s.jobs[j])
    {
      RecoveredIs(s.jobs, j);
      RecoveredIsLighter(maxRevisions, s, stored.runs, j);
    }
    if t != s.jobs {
      var j :| j in s.jobs && t[j] != s.jobs[j];
    }
  }

  lemma SameWeight(maxRevisions: nat, runs: Runs, after: Runs, b: Job)
    requires Undecided(runs, b.run) <==> Undecided(after, b.run)
    ensures Weight(maxRevisions, after, b) == Weight(maxRevisions, runs, b)
  {
  }

  lemma OnActionDescends(maxRevisions: nat, s: Engine, t: Engine, c: ChannelId, action: Channels.Action,
                         swept: seq<Completion>)
    requires Inv(s) && t == s.(channels := t.channels) && ActionOk(t, c, action, swept)
    ensures Descends(maxRevisions, s, OnAction(t, action, swept))
  {
    hide Inv, Descends;
    SameScheduleInv(s, t);
    InvRefs(s);
    SameJobsDescend(maxRevisions, s, t);
    if action.Close? && c in t.channels {
      SweepDescends(maxRevisions, t, c, t.channels[c].participants, swept);
      DescendsTransitive(maxRevisions, s, t, Sweep(t, swept));
    } else if action.Close? {
      assert Sweep(t, []) == t;
    }
  }

  // ---- Steps that bring new jobs ----

  lemma SumTradesUp<K>(f: map<K, nat>, g: map<K, nat>, k: K, x: K, y: K)
    requires k in f && x !in f && y !in f && x != y && g.Keys == f.Keys + {x, y}
    requires forall i :: i in f && i != k ==> g[i] <= f[i]
    requires g[k] + g[x] + g[y] < f[k]
    ensures Sum(g) < Sum(f)
  {
    var h := g - {x} - {y};
    SumWithout(g, x);
    SumWithout(g - {x}, y);
    SumWithout(h, k);
    SumWithout(f, k);
    SumMonotone(h - {k}, f - {k});
  }

  // What completing a job does to the weights, its own included.
  lemma CompletedWeights(maxRevisions: nat, s: Engine, c: Completion)
    requires Inv(s) && CompletionOk(s, c)
    ensures var t := Complete(s, c);
      && NoHeavier(maxRevisions, s.runs, s.jobs, t.runs, t.jobs)
      && c.job in s.jobs && t.jobs[c.job].status.Completed? && Weight(maxRevisions, t.runs, t.jobs[c.job]) == 0
      && Weight(maxRevisions, s.runs, s.jobs[c.job]) > Revisions(maxRevisions, s.jobs[c.job])
  {
    hide AttemptsOk, DepsExact, RootsOk, QueueOk, CapOk, MarkCompleted;
    var t := Complete(s, c);
    CompleteDescends(maxRevisions, s, c);
    CompleteSpec(s, c);
    assert s.jobs[c.job].status.Running? && s.jobs[c.job].run in s.runs;
  }

  lemma OldPlanning(runs: Runs, jobs: Jobs, t: Jobs, r: RunId, j: JobId)
    requires RefsOk(runs, jobs) && Extended(jobs, t, r) && j in jobs
    ensures j in t && Planning(t, j) == Planning(jobs, j)
  {
    if jobs[j].deps != [] {
      assert jobs[j].deps[0] in jobs[j].deps;
    }
  }

  // New jobs that do not plan leave the planning work as it was.
  lemma SamePlanners(maxRevisions: nat, t: Engine, u: Engine, r: RunId)
    requires RefsOk(t.runs, t.jobs) && Extended(t.jobs, u.jobs, r) && u.runs == t.runs
    requires forall j :: j in u.jobs && j !in t.jobs ==> !Planning(u.jobs, j)
    ensures PlannerWork(maxRevisions, u) == PlannerWork(maxRevisions, t)
  {
    hide Weight, Planning, RefsOk, Sum;
    forall j | j in t.jobs ensures Planning(u.jobs, j) == Planning(t.jobs, j) {
      OldPlanning(t.runs, t.jobs, u.jobs, r, j);
    }
    SumPadded(Weights(maxRevisions, t.runs, t.jobs, true), Weights(maxRevisions, u.runs, u.jobs, true));
  }

  ghost predicate NoPlanners(plan: Plan) {
    forall i :: 0 <= i < |plan.jobs| ==> !RoleOf(plan.jobs[i].role).Planner?
  }

  lemma CopiesAreWorkers(plan: Plan, ids: seq<JobId>, jobs: Jobs, t: Jobs, r: RunId, parent: JobId, j: JobId)
    requires |ids| == |plan.jobs| && NoPlanners(plan)
    requires t.Keys == jobs.Keys + (set id | id in ids) && j in t && j !in jobs
    requires forall i :: 0 <= i < |ids| ==> JobCopies(plan, ids, r, parent, plan.jobs[i], t[ids[i]])
    ensures !t[j].role.Planner?
  {
    var i :| 0 <= i < |ids| && ids[i] == j;
    assert JobCopies(plan, ids, r, parent, plan.jobs[i], t[ids[i]]);
  }

  lemma WorkersDoNotPlan(jobs: Jobs, t: Jobs, r: RunId, j: JobId)
    requires Extended(jobs, t, r) && j in t && j !in jobs
    requires forall k :: k in t && k !in jobs ==> !t[k].role.Planner?
    ensures !Planning(t, j)
  {
    if t[j].deps != [] {
      assert t[j].deps[0] in t[j].deps;
    }
  }

  lemma PlanIsLessWork(maxRevisions: nat, s: Engine, c: Completion, plan: Plan, ids: seq<JobId>)
    requires Inv(s) && CompletionOk(s, c) && c.job in s.jobs && s.jobs[c.job].role.Planner?
    requires WellFormed(plan) && FreshIds(plan, ids, s.jobs) && NoPlanners(plan)
    ensures LessWork(maxRevisions, MaterializePlan(Complete(s, c), s.jobs[c.job].run, c.job, plan, ids), s)
  {
    hide Inv, CompletionOk, WellFormed, Weight, Weights, Sum, Extended, JobCopies, MaterializePlan, Complete, Revisions;
    var t, r := Complete(s, c), s.jobs[c.job].run;
    CompletedWeights(maxRevisions, s, c);
    CompletionKeeps(s, c);
    InvRefs(t);
    var u := MaterializePlan(t, r, c.job, plan, ids);
    MaterializeShape(t, r, c.job, plan, ids);
    forall j | j in u.jobs && j !in t.jobs ensures !u.jobs[j].role.Planner? {
      CopiesAreWorkers(plan, ids, t.jobs, u.jobs, r, c.job, j);
    }
    forall j | j in u.jobs && j !in t.jobs ensures !Planning(u.jobs, j) {
      WorkersDoNotPlan(t.jobs, u.jobs, r, j);
    }
    SamePlanners(maxRevisions, t, u, r);
    LighterSum(maxRevisions, s, t, c.job);
  }

  // A revision is worth no more than the rounds of the review that asked for it.
  lemma RevisionIsLighter(maxRevisions: nat, t: Engine, j: JobId, decision: Decision, coderId: JobId)
    requires j in t.jobs && t.jobs[j].role.Reviewer?
    requires Revision(t, j, decision, maxRevisions, coderId).Some?
    ensures var (coder, rev) := Revision(t, j, decision, maxRevisions, coderId).value;
      Weight(maxRevisions, t.runs, coder) + Weight(maxRevisions, t.runs, rev) <= Revisions(maxRevisions, t.jobs[j])
  {
  }

  // The two new jobs plan exactly if the review was one of a planner.
  lemma RevisionPlansIff(maxRevisions: nat, t: Engine, j: JobId, decision: Decision, coder: JobId, reviewer: JobId)
    requires j in t.jobs && t.jobs[j].role.Reviewer?
    requires coder !in t.jobs && reviewer !in t.jobs && coder != reviewer
    requires Revision(t, j, decision, maxRevisions, coder).Some?
    ensures var u := HandleReview(t, j, decision, maxRevisions, coder, reviewer);
      && coder in u.jobs && reviewer in u.jobs
      && Planning(u.jobs, coder) == Planning(t.jobs, j) && Planning(u.jobs, reviewer) == Planning(t.jobs, j)
  {
    hide RevisedInstruction;
  }

  lemma TradedWeights(maxRevisions: nat, s: Engine, t: Engine, u: Engine, r: RunId, j: JobId, x: JobId, y: JobId)
    requires NoHeavier(maxRevisions, s.runs, s.jobs, t.runs, t.jobs) && RefsOk(t.runs, t.jobs)
    requires Extended(t.jobs, u.jobs, r) && u.runs == t.runs && u.jobs.Keys == t.jobs.Keys + {x, y}
    requires j in s.jobs && Weight(maxRevisions, t.runs, t.jobs[j]) == 0
    requires x !in s.jobs && y !in s.jobs && x != y
    requires Weight(maxRevisions, t.runs, u.jobs[x]) + Weight(maxRevisions, t.runs, u.jobs[y])
           < Weight(maxRevisions, s.runs, s.jobs[j])
    ensures Sum(Weights(maxRevisions, u.runs, u.jobs, Planning(s.jobs, j)))
          < Sum(Weights(maxRevisions, s.runs, s.jobs, Planning(s.jobs, j)))
  {
    hide Weight, RefsOk, Planning, Sum;
    var p := Planning(s.jobs, j);
    var f, g := Weights(maxRevisions, s.runs, s.jobs, p), Weights(maxRevisions, u.runs, u.jobs, p);
    forall i | i in f && i != j ensures g[i] <= f[i] {
      OldPlanning(t.runs, t.jobs, u.jobs, r, i);
      SamePlanning(s.jobs, t.jobs, i);
      assert u.jobs[i] == t.jobs[i];
    }
    assert u.jobs[j] == t.jobs[j];
    SumTradesUp(f, g, j, x, y);
  }

  lemma TradeIsLessWork(maxRevisions: nat, s: Engine, t: Engine, u: Engine, r: RunId, j: JobId, x: JobId, y: JobId)
    requires NoHeavier(maxRevisions, s.runs, s.jobs, t.runs, t.jobs) && RefsOk(t.runs, t.jobs)
    requires Extended(t.jobs, u.jobs, r) && u.runs == t.runs && u.jobs.Keys == t.jobs.Keys + {x, y}
    requires j in s.jobs && Weight(maxRevisions, t.runs, t.jobs[j]) == 0
    requires x !in s.jobs && y !in s.jobs && x != y
    requires Planning(u.jobs, x) == Planning(s.jobs, j) && Planning(u.jobs, y) == Planning(s.jobs, j)
    requires Weight(maxRevisions, t.runs, u.jobs[x]) + Weight(maxRevisions, t.runs, u.jobs[y])
           < Weight(maxRevisions, s.runs, s.jobs[j])
    ensures LessWork(maxRevisions, u, s)
  {
    hide Weight, Weights, RefsOk, Planning, Sum;
    TradedWeights(maxRevisions, s, t, u, r, j, x, y);
    if !Planning(s.jobs, j) {
      SamePlanners(maxRevisions, t, u, r);
      NoHeavierSums(maxRevisions, s, t, true);
    }
  }

  lemma ReviewIsLessWork(maxRevisions: nat, s: Engine, c: Completion, decision: Decision, coderId: JobId,
                         reviewerId: JobId)
    requires Inv(s) && CompletionOk(s, c) && c.job in s.jobs && s.jobs[c.job].role.Reviewer?
    requires coderId !in s.jobs && reviewerId !in s.jobs && coderId != reviewerId
    requires Revision(Complete(s, c), c.job, decision, maxRevisions, coderId).Some?
    ensures LessWork(maxRevisions,
                     HandleReview(Complete(s, c), c.job, decision, maxRevisions, coderId, reviewerId), s)
  {
    hide Inv, CompletionOk, Weight, Extended, Complete, Revision, Revisions, LessWork, Planning;
    var t := Complete(s, c);
    var u := HandleReview(t, c.job, decision, maxRevisions, coderId, reviewerId);
    CompletedWeights(maxRevisions, s, c);
    CompletionKeeps(s, c);
    SameRevisions(maxRevisions, s, c);
    InvRefs(t);
    RevisionIsLighter(maxRevisions, t, c.job, decision, coderId);
    RevisionPlansIff(maxRevisions, t, c.job, decision, coderId, reviewerId);
    SamePlanning(s.jobs, t.jobs, c.job);
    ReviewShape(maxRevisions, t, c.job, decision, coderId, reviewerId);
    TradeIsLessWork(maxRevisions, s, t, u, t.jobs[c.job].run, c.job, coderId, reviewerId);
  }

  lemma SameRevisions(maxRevisions: nat, s: Engine, c: Completion)
    requires Inv(s) && CompletionOk(s, c) && c.job in s.jobs
    ensures c.job in Complete(s, c).jobs && Complete(s, c).jobs[c.job].role == s.jobs[c.job].role
    ensures Revisions(maxRevisions, Complete(s, c).jobs[c.job]) == Revisions(maxRevisions, s.jobs[c.job])
  {
    hide RecordsOk, QueueOk, SlotsOk, CapOk, Complete;
    CompleteSpec(s, c);
  }

  // ---- Whole runs ----

  ghost predicate PlannerFree(e: Event) {
    e.JobCompleted? && e.outcome.PlanText? && WellFormed(e.outcome.plan) ==> NoPlanners(e.outcome.plan)
  }

  lemma OnCompletedLessWork(maxRevisions: nat, s: Engine, c: Completion, outcome: Outcome)
    requires Inv(s) && CompletionOk(s, c) && OutcomeOk(s, outcome) && PlannerFree(JobCompleted(c, outcome))
    ensures LessWork(maxRevisions, OnCompleted(maxRevisions, s, c, outcome), s)
  {
    hide RecordsOk, QueueOk, SlotsOk, CapOk, CompletionOk, Complete, WellFormed, MaterializePlan, Revision,
         LessWork, Descends, NoPlanners;
    var t, u := Complete(s, c), OnCompleted(maxRevisions, s, c, outcome);
    CompletionChanges(s, c);
    CompleteDescends(maxRevisions, s, c);
    DescentIsLessWork(maxRevisions, s, t);
    RejectDescends(maxRevisions, s, c);
    DescentIsLessWork(maxRevisions, s, MarkFailed(t, c.job, PlanRejected));
    if s.jobs[c.job].role.Planner? && outcome.PlanText? && WellFormed(outcome.plan) {
      PlanIsLessWork(maxRevisions, s, c, outcome.plan, outcome.ids);
    } else if s.jobs[c.job].role.Reviewer? && outcome.Review?
              && Revision(t, c.job, outcome.decision, maxRevisions, outcome.coder).Some? {
      ReviewIsLessWork(maxRevisions, s, c, outcome.decision, outcome.coder, outcome.reviewer);
    }
  }

  lemma CompletionChanges(s: Engine, c: Completion)
    requires Inv(s) && CompletionOk(s, c)
    ensures c.job in s.jobs && Complete(s, c).jobs != s.jobs
    ensures MarkFailed(Complete(s, c), c.job, PlanRejected).jobs != s.jobs
  {
    hide RecordsOk, QueueOk, CapOk, Complete;
    CompleteSpec(s, c);
    assert s.jobs[c.job].status.Running?;
    assert Complete(s, c).jobs[c.job].status.Completed?;
    assert !MarkFailed(Complete(s, c), c.job, PlanRejected).jobs[c.job].status.Running?;
  }

  // A restart that knows less than the engine did: some start is not recorded.
  ghost predicate LosesStart(s: Engine, e: Event) {
    e.Restart? && e.stored.jobs != s.jobs
  }

  // Every step that loses no start leaves no more work, and less if it changes
  // any job.
  lemma StepLessWork(maxRevisions: nat, s: Engine, e: Event)
    requires Inv(s) && Enabled(s, e) && !e.SubmitRun? && PlannerFree(e) && !LosesStart(s, e)
    ensures NoMoreWork(maxRevisions, Step(maxRevisions, s, e), s)
    ensures Step(maxRevisions, s, e).jobs != s.jobs ==> LessWork(maxRevisions, Step(maxRevisions, s, e), s)
  {
    hide LessWork, Inv, OnCompleted, CompletionOk, OutcomeOk, Rejects;
    if e.JobCompleted? {
      OnCompletedLessWork(maxRevisions, s, e.done, e.outcome);
    } else {
      StepDescends(maxRevisions, s, e);
      DescentIsLessWork(maxRevisions, s, Step(maxRevisions, s, e));
    }
  }

  lemma StepDescends(maxRevisions: nat, s: Engine, e: Event)
    requires Inv(s) && Enabled(s, e) && !e.SubmitRun? && !e.JobCompleted? && !LosesStart(s, e)
    ensures Descends(maxRevisions, s, Step(maxRevisions, s, e))
  {
    hide RecordsOk, QueueOk, CapOk, Descends, OnFailed, OnAction, CancelRun, Spawn, Restarted, Behind;
    InvRefs(s);
    match e
    case SpawnJob(now) => SpawnDescends(maxRevisions, s, now);
    case Heartbeat(j, now) => SameJobsDescend(maxRevisions, s, RecordHeartbeat(s, j, now));
    case JobFailed(j, note, cs) => OnFailedDescends(maxRevisions, s, j, note, cs);
    case MessageFrom(c, sender, content, swept) =>
      var (t, action) := RouteMessage(s, c, sender, content);
      OnActionDescends(maxRevisions, s, t, c, action, swept);
    case DoneFrom(c, sender, swept) =>
      var (t, action) := ChannelDone(s, c, sender);
      OnActionDescends(maxRevisions, s, t, c, action, swept);
    case ActivateReady => SameJobsDescend(maxRevisions, s, ActivateChannels(s));
    case Cancel(r, order) => CancelDescends(maxRevisions, s, r, order);
    case Restart(stored, queue) => RestartDescends(maxRevisions, s, stored, queue);
  }

  // An endless run: the daemon's states and the events between them.
  ghost predicate Endless(maxRevisions: nat, state: nat -> Engine, event: nat -> Event) {
    && Inv(state(0))
    && forall i: nat ::
         && Enabled(state(i), event(i)) && !event(i).SubmitRun? && PlannerFree(event(i))
         && state(i + 1) == Step(maxRevisions, state(i), event(i))
  }

  lemma {:induction false} EndlessInv(maxRevisions: nat, state: nat -> Engine, event: nat -> Event, i: nat)
    requires Endless(maxRevisions, state, event)
    ensures Inv(state(i)) && Enabled(state(i), event(i)) && !event(i).SubmitRun? && PlannerFree(event(i))
    ensures state(i + 1) == Step(maxRevisions, state(i), event(i))
  {
    hide Inv, Enabled, Step, PlannerFree;
    if i > 0 {
      EndlessInv(maxRevisions, state, event, i - 1);
      StepKeepsInv(maxRevisions, state(i - 1), event(i - 1));
    }
  }

  // From moment n on no restart loses a start.
  ghost predicate RecordedFrom(state: nat -> Engine, event: nat -> Event, n: nat) {
    forall i: nat :: i >= n ==> !LosesStart(state(i), event(i))
  }

  lemma {:induction false} WorkRunsDown(maxRevisions: nat, state: nat -> Engine, event: nat -> Event, i: nat, k: nat)
    requires Endless(maxRevisions, state, event) && RecordedFrom(state, event, i) && i <= k
    ensures NoMoreWork(maxRevisions, state(k), state(i))
    ensures state(k).jobs != state(i).jobs ==> LessWork(maxRevisions, state(k), state(i))
    decreases k - i
  {
    hide Endless, Inv, Enabled, Step, PlannerFree, PlannerWork, OtherWork, LosesStart;
    if i < k {
      WorkRunsDown(maxRevisions, state, event, i, k - 1);
      EndlessInv(maxRevisions, state, event, k - 1);
      assert !LosesStart(state(k - 1), event(k - 1));
      StepLessWork(maxRevisions, state(k - 1), event(k - 1));
      assert state(k - 1 + 1) == state(k);
    }
  }

  ghost predicate QuietFrom(state: nat -> Engine, n: nat) {
    forall i: nat :: i >= n ==> state(i).jobs == state(n).jobs
  }

  // In any endless run without new submissions and with plans free of planners,
  // once no more starts are lost, there is a moment from which no job changes.
  lemma {:induction false} Settles(maxRevisions: nat, state: nat -> Engine, event: nat -> Event, k: nat)
      returns (n: nat)
    requires Endless(maxRevisions, state, event) && RecordedFrom(state, event, k)
    ensures n >= k && QuietFrom(state, n)
    decreases PlannerWork(maxRevisions, state(k)), OtherWork(maxRevisions, state(k))
  {
    hide Endless, PlannerWork, OtherWork, LosesStart;
    if QuietFrom(state, k) {
      n := k;
    } else {
      var i: nat :| i >= k && state(i).jobs != state(k).jobs;
      WorkRunsDown(maxRevisions, state, event, k, i);
      n := Settles(maxRevisions, state, event, i);
    }
  }

  // A restart that loses a start changes a job.
  lemma LossIsChange(maxRevisions: nat, s: Engine, e: Event)
    requires Enabled(s, e) && LosesStart(s, e)
    ensures Step(maxRevisions, s, e).jobs != s.jobs
  {
    LostJob(s, e.stored, e.queue);
  }

  lemma LostJob(s: Engine, stored: Records, queue: seq<JobId>)
    requires Behind(stored, s) && stored.jobs != s.jobs
    ensures Restarted(stored, s.cap, queue).jobs != s.jobs
  {
    var j :| j in s.jobs && stored.jobs[j] != s.jobs[j];
    RecoveredIs(stored.jobs, j);
    assert s.jobs[j].status.Running? && Restarted(stored, s.cap, queue).jobs[j].status.Ready?;
  }

  // Termination, exactly: such a run comes to rest if and only if it loses
  // starts to restarts only finitely often; so, within a session, always. There
  // are then finitely many starts, completions, failures, retries and revisions.
  lemma SettlesIff(maxRevisions: nat, state: nat -> Engine, event: nat -> Event)
    requires Endless(maxRevisions, state, event)
    ensures (exists n: nat :: QuietFrom(state, n)) <==> (exists n: nat :: RecordedFrom(state, event, n))
  {
    hide Endless, Enabled, Step, LosesStart;
    if n: nat :| RecordedFrom(state, event, n) {
      var k := Settles(maxRevisions, state, event, n);
    }
    if n: nat :| QuietFrom(state, n) {
      forall i: nat | i >= n ensures !LosesStart(state(i), event(i)) {
        EndlessInv(maxRevisions, state, event, i);
        assert state(i + 1).jobs == state(n).jobs && state(i).jobs == state(n).jobs;
        if LosesStart(state(i), event(i)) {
          LossIsChange(maxRevisions, state(i), event(i));
        }
      }
      assert RecordedFrom(state, event, n);
    }
  }

  // ---- Revision rounds ----

  ghost predicate RoundsBounded(maxRevisions: nat, jobs: Jobs) {
    forall j :: j in jobs ==> jobs[j].round <= maxRevisions
  }

  lemma NewRounds(maxRevisions: nat, s: Engine, c: Completion, outcome: Outcome)
    requires Inv(s) && CompletionOk(s, c) && OutcomeOk(s, outcome) && RoundsBounded(maxRevisions, s.jobs)
    ensures RoundsBounded(maxRevisions, OnCompleted(maxRevisions, s, c, outcome).jobs)
  {
    hide Inv, CompletionOk, Complete, WellFormed, MaterializePlan, RevisedInstruction;
    var t, u := Complete(s, c), OnCompleted(maxRevisions, s, c, outcome);
    OnCompletedEvolves(maxRevisions, s, c, outcome);
    CompleteEvolves(s, c);
    CompleteShape(s, c);
    if s.jobs[c.job].role.Planner? && outcome.PlanText? && WellFormed(outcome.plan) {
      var plan, ids, r := outcome.plan, outcome.ids, s.jobs[c.job].run;
      MaterializeShape(t, r, c.job, plan, ids);
      forall j | j in u.jobs && j !in t.jobs ensures u.jobs[j].round == 0 {
        var i :| 0 <= i < |ids| && ids[i] == j;
        assert JobCopies(plan, ids, r, c.job, plan.jobs[i], u.jobs[ids[i]]);
      }
    }
  }

  lemma {:induction false} ExecuteRounds(maxRevisions: nat, cap: nat, history: seq<Event>)
    requires Legal(maxRevisions, Init(cap), history)
    ensures RoundsBounded(maxRevisions, Execute(maxRevisions, Init(cap), history).jobs)
  {
    hide Inv, Step;
    if history != [] {
      var n := |history| - 1;
      var s := Execute(maxRevisions, Init(cap), history[..n]);
      ExecuteRounds(maxRevisions, cap, history[..n]);
      InitInv(cap);
      ExecuteKeepsInv(maxRevisions, Init(cap), history[..n]);
      StepRounds(maxRevisions, s, history[n]);
    }
  }

  // No job is ever revised more often than allowed.
  lemma RevisionRoundsBounded(maxRevisions: nat, s: Engine, j: JobId)
    requires Reachable(maxRevisions, s) && j in s.jobs
    ensures s.jobs[j].round <= maxRevisions
  {
    hide Legal, Execute;
    var cap: nat :| Reaches(maxRevisions, Init(cap), s);
    var history :| Legal(maxRevisions, Init(cap), history) && s == Execute(maxRevisions, Init(cap), history);
    ExecuteRounds(maxRevisions, cap, history);
  }

  lemma StepRounds(maxRevisions: nat, s: Engine, e: Event)
    requires Inv(s) && Enabled(s, e) && RoundsBounded(maxRevisions, s.jobs)
    ensures RoundsBounded(maxRevisions, Step(maxRevisions, s, e).jobs)
  {
    hide Inv, OnCompleted, OnFailed, OnAction, CancelRun, Spawn, Restarted;
    StepEvolves(maxRevisions, s, e);
    if e.JobCompleted? {
      NewRounds(maxRevisions, s, e.done, e.outcome);
    } else if !e.SubmitRun? {
      OldJobsOnly(maxRevisions, s, e);
    }
  }
}
