/** When a job is timed out, read off the events: by when it was last started or
    last heard of. */
module Heartbeats {
  import opened Types
  import opened Collections
  import opened Planner
  import opened Materialization
  import opened EngineSpec
  import opened EngineInv
  import opened EngineLife
  import opened Failures
  import opened Daemon
  import opened DaemonFrame
  import opened Progress
  import opened Starts
  import opened Stall
  import Channels

  // The time of the last event that started job j or was a heartbeat of it.
  ghost function LastHeard(maxRevisions: nat, s: Engine, history: seq<Event>, j: JobId): Option<int> {
    if history == [] then None
    else
      var n := |history| - 1;
      match history[n]
      case SpawnJob(now) =>
        if StartedBy(Execute(maxRevisions, s, history[..n]), history[n]) == Some(j) then Some(now)
        else LastHeard(maxRevisions, s, history[..n], j)
      case Heartbeat(k, at) => if k == j then Some(at) else LastHeard(maxRevisions, s, history[..n], j)
      case _ => LastHeard(maxRevisions, s, history[..n], j)
  }

  // ---- Other events leave the heartbeats of slot holders alone ----

  ghost predicate BeatsKept(s: Engine, t: Engine) {
    forall j :: j in t.active ==> j in s.active && (j in t.beats <==> j in s.beats) && (j in t.beats ==> t.beats[j] == s.beats[j])
  }

  lemma BeatsKeptTransitive(s: Engine, t: Engine, u: Engine)
    requires BeatsKept(s, t) && BeatsKept(t, u)
    ensures BeatsKept(s, u)
  {
  }

  lemma SameBeats(s: Engine, t: Engine)
    requires t.active == s.active && t.beats == s.beats
    ensures BeatsKept(s, t)
  {
  }

  lemma FreedBeats(s: Engine, t: Engine, j: JobId)
    requires t.active == s.active - {j} && t.beats == s.beats - {j}
    ensures BeatsKept(s, t)
  {
  }

  lemma {:induction false} FailAllBeatsKept(s: Engine, order: seq<JobId>, note: Note)
    ensures BeatsKept(s, FailAll(s, order, note))
  {
    hide BeatsKept;
    if order == [] {
      SameBeats(s, s);
    } else {
      var n := |order| - 1;
      var t := FailAll(s, order[..n], note);
      FailAllBeatsKept(s, order[..n], note);
      FreedBeats(t, MarkFailed(t, order[n], note), order[n]);
      BeatsKeptTransitive(s, t, MarkFailed(t, order[n], note));
    }
  }

  lemma {:induction false} SweepBeatsKept(s: Engine, swept: seq<Completion>)
    ensures BeatsKept(s, Sweep(s, swept))
  {
    hide BeatsKept, Promote, CheckCompletion;
    if swept == [] {
      SameBeats(s, s);
    } else {
      var n := |swept| - 1;
      var t := Sweep(s, swept[..n]);
      SweepBeatsKept(s, swept[..n]);
      FreedBeats(t, Complete(t, swept[n]), swept[n].job);
      BeatsKeptTransitive(s, t, Complete(t, swept[n]));
    }
  }

  lemma OnFailedBeatsKept(s: Engine, j: JobId, note: Note, cs: seq<ChannelId>)
    ensures BeatsKept(s, OnFailed(s, j, note, cs))
  {
    hide BeatsKept, FailAll, FailPeers, MarkFailed, Killed, ClosedAt;
    var kills, peer := Killed(s.channels, j, cs), Note.PeerFailed(j);
    var t, u := FailAll(s, kills, peer), FailPeers(s, j, cs);
    FailPeersShape(s, j, cs);
    FailAllBeatsKept(s, kills, peer);
    SameBeats(t, u);
    FailureBeats(u, j, note);
    BeatsKeptTransitive(s, t, u);
    BeatsKeptTransitive(s, u, MarkFailed(u, j, note));
  }

  lemma FailureBeats(u: Engine, j: JobId, note: Note)
    ensures BeatsKept(u, MarkFailed(u, j, note))
  {
    hide BeatsKept, CheckCompletion;
    FreedBeats(u, MarkFailed(u, j, note), j);
  }

  lemma CompletionBeats(s: Engine, c: Completion)
    ensures BeatsKept(s, Complete(s, c))
  {
    hide BeatsKept, Promote, CheckCompletion;
    FreedBeats(s, Complete(s, c), c.job);
  }

  lemma PlanBeats(t: Engine, r: RunId, j: JobId, outcome: Outcome)
    ensures BeatsKept(t, AfterPlanner(t, r, j, outcome))
  {
    hide BeatsKept, MarkFailed, WellFormed;
    FailureBeats(t, j, PlanRejected);
    SameBeats(t, t);
    if outcome.PlanText? && |outcome.ids| == |outcome.plan.jobs| {
      SameBeats(t, MaterializePlan(t, r, j, outcome.plan, outcome.ids));
    }
  }

  lemma ReviewBeats(maxRevisions: nat, t: Engine, j: JobId, outcome: Outcome)
    ensures BeatsKept(t, AfterReviewer(maxRevisions, t, j, outcome))
  {
    hide BeatsKept, Revision;
    SameBeats(t, AfterReviewer(maxRevisions, t, j, outcome));
  }

  lemma OnCompletedBeatsKept(maxRevisions: nat, s: Engine, c: Completion, outcome: Outcome)
    ensures BeatsKept(s, OnCompleted(maxRevisions, s, c, outcome))
  {
    hide BeatsKept, MarkCompleted, AfterPlanner, AfterReviewer;
    var t := Complete(s, c);
    CompletionBeats(s, c);
    if c.job in s.jobs {
      PlanBeats(t, s.jobs[c.job].run, c.job, outcome);
      ReviewBeats(maxRevisions, t, c.job, outcome);
      BeatsKeptTransitive(s, t, OnCompleted(maxRevisions, s, c, outcome));
    }
  }

  lemma CancelBeatsKept(s: Engine, r: RunId, order: seq<JobId>)
    ensures BeatsKept(s, CancelRun(s, r, order))
  {
    hide BeatsKept, FailAll;
    if Undecided(s.runs, r) {
      var t := FailAll(s, order, CancelledByUser);
      FailAllBeatsKept(s, order, CancelledByUser);
      SameBeats(t, CancelRun(s, r, order));
      BeatsKeptTransitive(s, t, CancelRun(s, r, order));
    } else {
      SameBeats(s, CancelRun(s, r, order));
    }
  }

  lemma StepBeatsKept(maxRevisions: nat, s: Engine, e: Event)
    requires !e.SpawnJob? && !e.Heartbeat?
    ensures BeatsKept(s, Step(maxRevisions, s, e))
  {
    hide BeatsKept, OnCompleted, OnFailed, Sweep, CancelRun;
    var t := Step(maxRevisions, s, e);
    match e
    case SubmitRun(r, root, task) => SameBeats(s, t);
    case JobCompleted(c, outcome) => OnCompletedBeatsKept(maxRevisions, s, c, outcome);
    case JobFailed(j, note, cs) => OnFailedBeatsKept(s, j, note, cs);
    case MessageFrom(c, sender, content, swept) =>
      var u := RouteMessage(s, c, sender, content).0;
      SameBeats(s, u);
      SweepBeatsKept(u, swept);
      BeatsKeptTransitive(s, u, Sweep(u, swept));
    case DoneFrom(c, sender, swept) =>
      var u := ChannelDone(s, c, sender).0;
      SameBeats(s, u);
      SweepBeatsKept(u, swept);
      BeatsKeptTransitive(s, u, Sweep(u, swept));
    case ActivateReady => SameBeats(s, t);
    case Cancel(r, order) => CancelBeatsKept(s, r, order);
    case Restart(stored, queue) => NobodyAtWork(s, stored, queue);
    case _ =>
  }

  lemma NobodyAtWork(s: Engine, stored: Records, queue: seq<JobId>)
    ensures BeatsKept(s, Restarted(stored, s.cap, queue))
  {
  }

  // ---- Over whole histories ----

  lemma SpawnBeats(s: Engine, now: int, j: JobId)
    requires Inv(s) && j in Spawn(s, now).active
    ensures var t := Spawn(s, now);
      && j in t.beats
      && if Picked(s) == Some(j) then t.beats[j] == now else j in s.active && j in s.beats && t.beats[j] == s.beats[j]
  {
    hide RecordsOk;
    SpawnShape(s, now);
    if Picked(s).Some? { assert s.queue[0] in s.queue; }
  }

  // What the engine has noted of a slot holder is when it was last heard of.
  lemma {:induction false} BeatsAreHeard(maxRevisions: nat, s: Engine, history: seq<Event>, j: JobId)
    requires Inv(s) && s.active == map[] && Legal(maxRevisions, s, history)
    requires j in Execute(maxRevisions, s, history).active
    ensures var t := Execute(maxRevisions, s, history);
      Inv(t) && j in t.beats && LastHeard(maxRevisions, s, history, j) == Some(t.beats[j])
  {
    hide RecordsOk, QueueOk, SlotsOk, Enabled, Step, Spawn;
    ExecuteKeepsInv(maxRevisions, s, history);
    var n := |history| - 1;
    var u, t, e := Execute(maxRevisions, s, history[..n]), Execute(maxRevisions, s, history), history[n];
    ExecuteKeepsInv(maxRevisions, s, history[..n]);
    assert t == Step(maxRevisions, u, e);
    match e
    case SpawnJob(now) =>
      StepIsSpawn(maxRevisions, u, now);
      SpawnBeats(u, now, j);
      if Picked(u) != Some(j) { BeatsAreHeard(maxRevisions, s, history[..n], j); }
    case Heartbeat(k, at) =>
      StepIsBeat(maxRevisions, u, k, at);
      BeatsAreHeard(maxRevisions, s, history[..n], j);
    case _ =>
      StepBeatsKept(maxRevisions, u, e);
      BeatsAreHeard(maxRevisions, s, history[..n], j);
  }

  lemma StepIsSpawn(maxRevisions: nat, u: Engine, now: int)
    ensures Step(maxRevisions, u, SpawnJob(now)) == Spawn(u, now)
  {
  }

  lemma StepIsBeat(maxRevisions: nat, u: Engine, k: JobId, at: int)
    ensures Step(maxRevisions, u, Heartbeat(k, at)) == RecordHeartbeat(u, k, at)
  {
  }

  // A job is reported stale if and only if it holds a slot and was last started,
  // or heard of, longer ago than the timeout.
  lemma StaleIff(maxRevisions: nat, cap: nat, history: seq<Event>, now: int, timeout: int, j: JobId)
    requires Legal(maxRevisions, Init(cap), history)
    ensures var t, heard := Execute(maxRevisions, Init(cap), history), LastHeard(maxRevisions, Init(cap), history, j);
      && (j in t.active ==> heard.Some?)
      && (j in StaleJobs(t, now, timeout) <==> j in t.active && now - heard.value > timeout)
  {
    hide Inv, Legal, Execute, LastHeard;
    InitInv(cap);
    if j in Execute(maxRevisions, Init(cap), history).active {
      BeatsAreHeard(maxRevisions, Init(cap), history, j);
    }
  }

  // After the timer has renewed heartbeats: if and only if, besides, it is not a
  // Running job with an idle worker and a seat at an open channel.
  lemma StaleAfterRenewalIff(maxRevisions: nat, cap: nat, history: seq<Event>, idle: set<JobId>, now: int, timeout: nat,
                             j: JobId)
    requires Legal(maxRevisions, Init(cap), history)
    ensures var t, heard := Execute(maxRevisions, Init(cap), history), LastHeard(maxRevisions, Init(cap), history, j);
      && (j in t.active ==> heard.Some? && j in t.jobs && t.jobs[j].status.Running?)
      && (j in StaleJobs(Renewed(t, idle, now), now, timeout) <==>
            && j in t.active && now - heard.value > timeout
            && !(j in idle && exists c :: c in t.channels && j in t.channels[c].participants && !t.channels[c].closed))
  {
    hide Inv, Legal, Execute, LastHeard, StaleJobs, Renewed;
    var t := Execute(maxRevisions, Init(cap), history);
    InitInv(cap);
    ExecuteKeepsInv(maxRevisions, Init(cap), history);
    StaleIff(maxRevisions, cap, history, now, timeout, j);
    RenewedStale(t, idle, now, timeout);
    if j in t.active { AtWorkRuns(t, j); }
  }

  lemma AtWorkRuns(t: Engine, j: JobId)
    requires Inv(t) && j in t.active
    ensures j in t.jobs && t.jobs[j].status.Running?
  {
  }
}
