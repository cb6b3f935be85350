/** The ready queue is first in, first out over whole runs: nobody in it is
    overtaken for ever. */
module QueueOrder {
  import opened Types
  import opened Collections
  import opened Planner
  import opened Materialization
  import opened EngineSpec
  import opened EngineInv
  import opened EngineLife
  import opened Failures
  import opened Daemon
  import opened DaemonFrame
  import opened Progress
  import opened Starts
  import Channels

  // ---- What a step does to the queue ----

  lemma {:induction false} SweepAppends(s: Engine, swept: seq<Completion>)
    ensures s.queue <= Sweep(s, swept).queue
  {
    if swept != [] {
      SweepAppends(s, swept[..|swept| - 1]);
    }
  }

  lemma OnFailedAppends(s: Engine, j: JobId, note: Note, cs: seq<ChannelId>)
    ensures s.queue <= OnFailed(s, j, note, cs).queue
  {
    hide FailAll;
    FailPeersShape(s, j, cs);
    FailAllQueue(s, Killed(s.channels, j, cs), Note.PeerFailed(j));
  }

  lemma CompleteAppends(s: Engine, c: Completion)
    ensures s.queue <= Complete(s, c).queue
  {
  }

  lemma AfterPlannerAppends(t: Engine, r: RunId, j: JobId, outcome: Outcome)
    ensures t.queue <= AfterPlanner(t, r, j, outcome).queue
  {
  }

  lemma AfterReviewerAppends(maxRevisions: nat, t: Engine, j: JobId, outcome: Outcome)
    ensures t.queue <= AfterReviewer(maxRevisions, t, j, outcome).queue
  {
  }

  lemma OnCompletedAppends(maxRevisions: nat, s: Engine, c: Completion, outcome: Outcome)
    ensures s.queue <= OnCompleted(maxRevisions, s, c, outcome).queue
  {
    hide Complete, AfterPlanner, AfterReviewer;
    CompleteAppends(s, c);
    if c.job in s.jobs {
      AfterPlannerAppends(Complete(s, c), s.jobs[c.job].run, c.job, outcome);
      AfterReviewerAppends(maxRevisions, Complete(s, c), c.job, outcome);
    }
  }

  // A job at most k places from the head.
  ghost predicate Within(queue: seq<JobId>, k: int, a: JobId) {
    exists i :: 0 <= i <= k && i < |queue| && queue[i] == a
  }

  lemma WithinPrefix(queue: seq<JobId>, longer: seq<JobId>, k: int, a: JobId)
    requires queue <= longer && Within(queue, k, a)
    ensures Within(longer, k, a)
  {
    var i :| 0 <= i <= k && i < |queue| && queue[i] == a;
    assert longer[i] == a;
  }

  lemma {:induction false} WithinFilter(queue: seq<JobId>, keep: JobId -> bool, k: int, a: JobId)
    requires Within(queue, k, a) && keep(a)
    ensures Within(Filter(queue, keep), k, a)
  {
    var i :| 0 <= i <= k && i < |queue| && queue[i] == a;
    if i == 0 {
      assert Filter(queue, keep)[0] == a;
    } else {
      assert queue[1..][i - 1] == a;
      assert Within(queue[1..], k - 1, a);
      WithinFilter(queue[1..], keep, k - 1, a);
      var n :| 0 <= n <= k - 1 && n < |Filter(queue[1..], keep)| && Filter(queue[1..], keep)[n] == a;
      assert Filter(queue, keep)[if keep(queue[0]) then n + 1 else n] == a;
    }
  }

  // The event cancels the job's run, and so takes it off the queue.
  ghost predicate Withdraws(s: Engine, e: Event, a: JobId)
    requires a in s.jobs
  {
    e.Cancel? && Undecided(s.runs, e.run) && e.run == s.jobs[a].run
  }

  // Whatever else happens, a queued job keeps its place or moves up; and when a
  // job is started it is that one or one before it.
  lemma StepMovesUp(maxRevisions: nat, s: Engine, e: Event, k: int, a: JobId)
    requires Inv(s) && Enabled(s, e) && !e.Restart? && Within(s.queue, k, a)
    requires a in s.jobs && !Withdraws(s, e, a)
    ensures var t, started := Step(maxRevisions, s, e), StartedBy(s, e);
      started == Some(a) || Within(t.queue, if started.Some? then k - 1 else k, a)
  {
    hide Inv, OnCompleted, OnFailed, Sweep, Spawn, CancelRun, Within, EngineLife.Cancelled, Filter;
    var t := Step(maxRevisions, s, e);
    match e
    case SpawnJob(now) => SpawnMovesUp(s, now, k, a);
    case JobCompleted(c, outcome) =>
      OnCompletedAppends(maxRevisions, s, c, outcome);
      WithinPrefix(s.queue, t.queue, k, a);
    case JobFailed(j, note, cs) =>
      OnFailedAppends(s, j, note, cs);
      WithinPrefix(s.queue, t.queue, k, a);
    case MessageFrom(c, sender, content, swept) =>
      SweepAppends(RouteMessage(s, c, sender, content).0, swept);
      WithinPrefix(s.queue, t.queue, k, a);
    case DoneFrom(c, sender, swept) =>
      SweepAppends(ChannelDone(s, c, sender).0, swept);
      WithinPrefix(s.queue, t.queue, k, a);
    case Cancel(r, order) => CancelMovesUp(s, r, order, k, a);
    case _ => WithinPrefix(s.queue, t.queue, k, a);
  }

  lemma SpawnMovesUp(s: Engine, now: int, k: int, a: JobId)
    requires Inv(s) && Within(s.queue, k, a)
    ensures Picked(s) == Some(a) || Within(Spawn(s, now).queue, if Picked(s).Some? then k - 1 else k, a)
  {
    hide Inv, Spawn;
    SpawnShape(s, now);
    if Picked(s).Some? && s.queue[0] != a {
      var i :| 0 <= i <= k && i < |s.queue| && s.queue[i] == a;
      assert s.queue[1..][i - 1] == a;
    }
  }

  lemma CancelMovesUp(s: Engine, r: RunId, order: seq<JobId>, k: int, a: JobId)
    requires Inv(s) && Enabled(s, Cancel(r, order)) && Within(s.queue, k, a)
    requires a in s.jobs && !Withdraws(s, Cancel(r, order), a)
    ensures Within(CancelRun(s, r, order).queue, k, a)
  {
    hide RecordsOk, QueueOk, CapOk, FailAll, Filter, Within;
    if Undecided(s.runs, r) {
      CancelSpec(s, r, order);
      WithinFilter(s.queue, Foreign(s.jobs, r), k, a);
    }
  }

  // ---- Whole runs ----

  // How many jobs are taken off the queue and started in the course of a history.
  ghost function AllStarts(maxRevisions: nat, s: Engine, history: seq<Event>): nat {
    if history == [] then 0
    else
      var n := |history| - 1;
      AllStarts(maxRevisions, s, history[..n])
      + if StartedBy(Execute(maxRevisions, s, history[..n]), history[n]).Some? then 1 else 0
  }

  ghost predicate Withdrawn(maxRevisions: nat, s: Engine, history: seq<Event>, a: JobId) {
    history != [] &&
      var n := |history| - 1;
      var t := Execute(maxRevisions, s, history[..n]);
      Withdrawn(maxRevisions, s, history[..n], a) || (a in t.jobs && Withdraws(t, history[n], a))
  }

  lemma {:induction false} PositionAfter(maxRevisions: nat, s: Engine, history: seq<Event>, k: int, a: JobId)
    requires Inv(s) && Legal(maxRevisions, s, history) && Within(s.queue, k, a) && a in s.jobs
    requires forall e :: e in history ==> !e.Restart?
    requires !Withdrawn(maxRevisions, s, history, a)
    ensures StartCount(maxRevisions, s, history, a) > 0
         || Within(Execute(maxRevisions, s, history).queue, k - AllStarts(maxRevisions, s, history), a)
  {
    hide Inv, Enabled, Step, Within, Evolves, Withdraws;
    if history != [] {
      var n := |history| - 1;
      var t := Execute(maxRevisions, s, history[..n]);
      ExecuteKeepsInv(maxRevisions, s, history[..n]);
      ExecuteEvolves(maxRevisions, s, history[..n]);
      StillKnown(s, t, a);
      PositionAfter(maxRevisions, s, history[..n], k, a);
      if StartCount(maxRevisions, s, history[..n], a) == 0 {
        StepMovesUp(maxRevisions, t, history[n], k - AllStarts(maxRevisions, s, history[..n]), a);
      }
    }
  }

  lemma StillKnown(s: Engine, t: Engine, a: JobId)
    requires Evolves(s, t) && a in s.jobs
    ensures a in t.jobs
  {
  }

  lemma QueuedIsKnown(s: Engine, k: nat)
    requires Inv(s) && k < |s.queue|
    ensures s.queue[k] in s.jobs
  {
    assert s.queue[k] in s.queue;
  }

  // No starvation: a job with k others before it in the queue has been started
  // by the time k + 1 jobs have, unless its run has been cancelled meanwhile.
  lemma NoStarvation(maxRevisions: nat, s: Engine, history: seq<Event>, k: nat)
    requires Inv(s) && Legal(maxRevisions, s, history) && k < |s.queue|
    requires forall e :: e in history ==> !e.Restart?
    ensures var a := s.queue[k];
      && a in s.jobs
      && (AllStarts(maxRevisions, s, history) > k ==>
            StartCount(maxRevisions, s, history, a) > 0 || Withdrawn(maxRevisions, s, history, a))
  {
    hide Inv, Legal, Execute, AllStarts, StartCount, Withdrawn;
    var a := s.queue[k];
    QueuedIsKnown(s, k);
    assert Within(s.queue, k, a);
    if !Withdrawn(maxRevisions, s, history, a) {
      PositionAfter(maxRevisions, s, history, k, a);
      assert AllStarts(maxRevisions, s, history) > k ==>
        !Within(Execute(maxRevisions, s, history).queue, k - AllStarts(maxRevisions, s, history), a);
    }
  }
}
