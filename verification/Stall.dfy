/** What becomes of the jobs of a conversation that has stopped: they wait for
    messages that do not come, and nothing times them out, so they keep their
    slots and their run does not finish. */
module Stall {
  import opened Types
  import opened Collections
  import opened Planner
  import opened Materialization
  import opened EngineSpec
  import opened EngineInv
  import opened EngineLife
  import opened Failures
  import opened Daemon
  import opened DaemonFrame
  import opened ChannelLife
  import Channels

  // Job p holds a slot and has a seat at channel c, which is open.
  ghost predicate Waits(s: Engine, c: ChannelId, p: JobId) {
    p in s.active && c in s.channels && p in s.channels[c].participants && !s.channels[c].closed
  }

  // The event is about channel c: something is said in it, a peer in it is lost
  // while it is active, or a plan takes its name.
  ghost predicate Concerns(s: Engine, e: Event, c: ChannelId) {
    match e
    case MessageFrom(d, _, _, _) => d == c
    case DoneFrom(d, _, _) => d == c
    case JobFailed(_, _, cs) => c in cs
    case JobCompleted(done, outcome) =>
      && outcome.PlanText? && WellFormed(outcome.plan) && done.job in s.jobs && s.jobs[done.job].role.Planner?
      && Named(s.jobs[done.job].run, outcome.plan.channels, c)
    case _ => false
  }

  // The event reports job p completed or failed, or kills it with a peer.
  ghost predicate Ends(s: Engine, e: Event, p: JobId) {
    match e
    case JobCompleted(done, _) => done.job == p
    case JobFailed(j, _, cs) => j == p || p in Killed(s.channels, j, cs)
    case _ => false
  }

  ghost predicate SameChannel(a: Channel, b: Channel) {
    b == a.(active := b.active)
  }

  // The job's record and the channel's are as they were, but that the channel
  // may have become active.
  ghost predicate Spared(s: Engine, t: Engine, c: ChannelId, p: JobId) {
    && p in s.jobs && p in t.jobs && t.jobs[p] == s.jobs[p]
    && c in s.channels && c in t.channels && SameChannel(s.channels[c], t.channels[c])
  }

  // ---- Each event ----

  lemma PlanSpares(t: Engine, r: RunId, j: JobId, plan: Plan, ids: seq<JobId>, c: ChannelId, p: JobId)
    requires WellFormed(plan) && FreshIds(plan, ids, t.jobs) && !Named(r, plan.channels, c)
    requires p in t.jobs && c in t.channels
    ensures Spared(t, MaterializePlan(t, r, j, plan, ids), c, p)
  {
    hide WellFormed, JobCopies, Filter;
    MaterializeShape(t, r, j, plan, ids);
    AddChannelsKeys(t.channels, IdMap(plan.jobs, ids), r, plan.channels);
  }

  lemma OnCompletedSpares(maxRevisions: nat, s: Engine, done: Completion, outcome: Outcome, c: ChannelId, p: JobId)
    requires Inv(s) && Waits(s, c, p) && Enabled(s, JobCompleted(done, outcome)) && done.job != p
    requires !Concerns(s, JobCompleted(done, outcome), c)
    ensures Spared(s, OnCompleted(maxRevisions, s, done, outcome), c, p)
  {
    hide RecordsOk, QueueOk, CapOk, MarkCompleted, WellFormed, Revision, Enumerates, MaterializePlan, Named;
    var t := Complete(s, done);
    CompleteSpec(s, done);
    CompleteKeepsChannels(s, done);
    assert t.jobs[p] == s.jobs[p];
    if s.jobs[done.job].role.Planner? && outcome.PlanText? && WellFormed(outcome.plan) {
      OutcomeStaysOk(s, t, outcome);
      PlanSpares(t, s.jobs[done.job].run, done.job, outcome.plan, outcome.ids, c, p);
    }
  }

  lemma OnFailedSpares(s: Engine, j: JobId, note: Note, cs: seq<ChannelId>, c: ChannelId, p: JobId)
    requires Inv(s) && Waits(s, c, p) && Enabled(s, JobFailed(j, note, cs))
    requires c !in cs && j != p && p !in Killed(s.channels, j, cs)
    ensures Spared(s, OnFailed(s, j, note, cs), c, p)
  {
    hide RecordsOk, QueueOk, CapOk, FailAll, FailPeers, KillsOk, Killed, CheckCompletion;
    FailPeersShape(s, j, cs);
    FailAllOthers(s, Killed(s.channels, j, cs), Note.PeerFailed(j), p);
  }

  // Nobody who has a seat at an open channel is swept when another one closes.
  lemma TalkSpares(s: Engine, t: Engine, d: ChannelId, action: Channels.Action, swept: seq<Completion>, c: ChannelId,
                   p: JobId)
    requires Inv(s) && Waits(s, c, p) && d != c && d in s.channels && d in t.channels
    requires t == s.(channels := s.channels[d := t.channels[d]]) && ActionOk(t, d, action, swept)
    ensures Spared(s, OnAction(t, action, swept), c, p)
  {
    hide RecordsOk, QueueOk, CapOk, SweepOk, Sweep;
    if action.Close? {
      SameScheduleInv(s, t);
      SweepSpec(t, d, t.channels[d].participants, swept);
      SweepKeepsChannels(t, swept);
      assert c in t.channels && p in t.channels[c].participants && !t.channels[c].closed;
      assert !Finished(t, d, p);
    }
  }

  lemma CancelSpares(s: Engine, r: RunId, order: seq<JobId>, c: ChannelId, p: JobId)
    requires Inv(s) && SeatsOk(s) && Waits(s, c, p) && Enabled(s, Cancel(r, order))
    ensures Spared(s, CancelRun(s, r, order), c, p)
  {
    hide RecordsOk, QueueOk, CapOk, FailAll, CancelRun;
    assert SeatOk(s.runs, s.jobs, s.channels[c]);
    CancelKeepsChannels(s, r, order);
    if Undecided(s.runs, r) {
      CancelSpec(s, r, order);
      assert s.jobs[p].run != r;
    } else {
      CancelRefused(s, r, order);
    }
  }

  lemma CancelRefused(s: Engine, r: RunId, order: seq<JobId>)
    requires !Undecided(s.runs, r)
    ensures CancelRun(s, r, order) == s
  {
  }

  lemma SpawnSpares(s: Engine, now: int, c: ChannelId, p: JobId)
    requires Inv(s) && Waits(s, c, p)
    ensures Spared(s, Spawn(s, now), c, p)
  {
    SpawnShape(s, now);
    if s.queue != [] { assert s.queue[0] in s.queue; }
  }

  lemma StepSpares(maxRevisions: nat, s: Engine, e: Event, c: ChannelId, p: JobId)
    requires Inv(s) && SeatsOk(s) && Waits(s, c, p) && Enabled(s, e) && !e.Restart?
    requires !Concerns(s, e, c) && !Ends(s, e, p)
    ensures Spared(s, Step(maxRevisions, s, e), c, p)
  {
    hide RecordsOk, QueueOk, CapOk, SeatsOk, OnCompleted, OnFailed, Sweep, CancelRun, Spawn, KillsOk, Channels.Route,
      Channels.Done, CanActivate, CompletionOk, OutcomeOk, WellFormed, Killed;
    match e
    case SpawnJob(now) => SpawnSpares(s, now, c, p);
    case JobCompleted(done, outcome) => OnCompletedSpares(maxRevisions, s, done, outcome, c, p);
    case JobFailed(j, note, cs) => OnFailedSpares(s, j, note, cs, c, p);
    case MessageFrom(d, sender, content, swept) =>
      var (t, action) := RouteMessage(s, d, sender, content);
      if d in s.channels { TalkSpares(s, t, d, action, swept, c, p); }
    case DoneFrom(d, sender, swept) =>
      var (t, action) := ChannelDone(s, d, sender);
      if d in s.channels { TalkSpares(s, t, d, action, swept, c, p); }
    case Cancel(r, order) => CancelSpares(s, r, order, c, p);
    case _ =>
  }

  // A job that is reported, or killed, is out of its slot.
  lemma EndedLeaves(maxRevisions: nat, s: Engine, e: Event, p: JobId)
    requires Inv(s) && Enabled(s, e) && Ends(s, e, p)
    ensures p !in Step(maxRevisions, s, e).active
  {
    hide Inv, KillsOk, Killed, FailAll, FailPeers;
    match e
    case JobCompleted(done, outcome) => CompletedLeaves(maxRevisions, s, done, outcome);
    case JobFailed(j, note, cs) =>
      FailPeersShape(s, j, cs);
      FailAllActive(s, Killed(s.channels, j, cs), Note.PeerFailed(j));
    case _ =>
  }

  lemma PlanTakesNoSlot(t: Engine, r: RunId, j: JobId, outcome: Outcome)
    requires j !in t.active
    ensures j !in AfterPlanner(t, r, j, outcome).active
  {
    hide WellFormed;
  }

  lemma ReviewTakesNoSlot(maxRevisions: nat, t: Engine, j: JobId, outcome: Outcome)
    ensures AfterReviewer(maxRevisions, t, j, outcome).active == t.active
  {
    hide Revision;
  }

  lemma CompletedLeaves(maxRevisions: nat, s: Engine, done: Completion, outcome: Outcome)
    ensures done.job !in OnCompleted(maxRevisions, s, done, outcome).active
  {
    hide AfterPlanner, AfterReviewer, Promote, CheckCompletion;
    var t := Complete(s, done);
    assert done.job !in t.active;
    if done.job in s.jobs {
      PlanTakesNoSlot(t, s.jobs[done.job].run, done.job, outcome);
      ReviewTakesNoSlot(maxRevisions, t, done.job, outcome);
    }
  }

  // A participant of an open channel that an event does not concern leaves its
  // slot if and only if the event reports it or kills it.
  lemma LeavesSlotIff(maxRevisions: nat, s: Engine, e: Event, c: ChannelId, p: JobId)
    requires Inv(s) && SeatsOk(s) && Waits(s, c, p) && Enabled(s, e) && !e.Restart? && !Concerns(s, e, c)
    ensures p !in Step(maxRevisions, s, e).active <==> Ends(s, e, p)
    ensures !Ends(s, e, p) ==> Spared(s, Step(maxRevisions, s, e), c, p)
  {
    hide RecordsOk, QueueOk, CapOk, SeatsOk, Step, Enabled, Concerns, Ends;
    if Ends(s, e, p) {
      EndedLeaves(maxRevisions, s, e, p);
    } else {
      StepSpares(maxRevisions, s, e, c, p);
      StepKeepsInv(maxRevisions, s, e);
    }
  }

  // ---- Whole sessions ----

  // Nothing in the history concerns the channel or ends the job.
  ghost predicate Silent(maxRevisions: nat, s: Engine, history: seq<Event>, c: ChannelId, p: JobId) {
    history != [] ==>
      var n := |history| - 1;
      var t := Execute(maxRevisions, s, history[..n]);
      Silent(maxRevisions, s, history[..n], c, p) && !history[n].Restart? && !Concerns(t, history[n], c) && !Ends(t, history[n], p)
  }

  ghost predicate Stalled(s: Engine, t: Engine, c: ChannelId, p: JobId) {
    Waits(t, c, p) && Spared(s, t, c, p) && !AllTerminal(t.jobs, t.jobs[p].run)
  }

  lemma SparedTransitive(s: Engine, t: Engine, u: Engine, c: ChannelId, p: JobId)
    requires Spared(s, t, c, p) && Spared(t, u, c, p)
    ensures Spared(s, u, c, p)
  {
  }

  lemma SparedWaits(s: Engine, t: Engine, c: ChannelId, p: JobId)
    requires Inv(s) && Inv(t) && Waits(s, c, p) && Spared(s, t, c, p)
    ensures Stalled(s, t, c, p)
  {
    hide RecordsOk, QueueOk, CapOk;
    assert p in RunJobs(t.jobs, t.jobs[p].run) && t.jobs[p].status.Running?;
  }

  // As long as the channel stays silent - and after a restart nobody is ever
  // asked in a conversation that had begun (Token.NeverResumes) - and the job is
  // left waiting, it keeps its slot and its run does not finish, whatever
  // happens elsewhere and for however long.
  lemma {:induction false} StalledForever(maxRevisions: nat, s: Engine, history: seq<Event>, c: ChannelId, p: JobId)
    requires Inv(s) && SeatsOk(s) && Waits(s, c, p)
    requires Legal(maxRevisions, s, history) && Silent(maxRevisions, s, history, c, p)
    ensures Stalled(s, Execute(maxRevisions, s, history), c, p)
    ensures Inv(Execute(maxRevisions, s, history)) && SeatsOk(Execute(maxRevisions, s, history))
  {
    hide Inv, SeatsOk, Step, Enabled, Concerns, Ends, Spared, AllTerminal;
    if history == [] {
      SparedByNothing(s, c, p);
      SparedWaits(s, s, c, p);
    } else {
      var n := |history| - 1;
      var t := Execute(maxRevisions, s, history[..n]);
      StalledForever(maxRevisions, s, history[..n], c, p);
      LeavesSlotIff(maxRevisions, t, history[n], c, p);
      StepKeepsInv(maxRevisions, t, history[n]);
      StepKeepsSeats(maxRevisions, t, history[n]);
      SparedTransitive(s, t, Step(maxRevisions, t, history[n]), c, p);
      SparedWaits(s, Step(maxRevisions, t, history[n]), c, p);
    }
  }

  lemma SparedByNothing(s: Engine, c: ChannelId, p: JobId)
    requires Inv(s) && Waits(s, c, p)
    ensures Spared(s, s, c, p)
  {
  }

  // ---- The timer does not end it ----

  // The jobs whose heartbeat the timer renews: those that run, take part in an
  // open channel and have an idle worker.
  ghost function Renewable(s: Engine, idle: set<JobId>): set<JobId> {
    set j | j in s.active && j in idle && j in s.jobs && s.jobs[j].status.Running?
            && exists c :: c in s.channels && j in s.channels[c].participants && !s.channels[c].closed
  }

  ghost function Renewed(s: Engine, idle: set<JobId>, now: int): Engine {
    s.(beats := s.beats + map j | j in Renewable(s, idle) :: now)
  }

  // After that a waiting job with an idle worker is not stale, and every other
  // job is or is not as it was.
  lemma RenewedStale(s: Engine, idle: set<JobId>, now: int, timeout: nat)
    ensures StaleJobs(Renewed(s, idle, now), now, timeout) == StaleJobs(s, now, timeout) - Renewable(s, idle)
  {
  }

  lemma WaitingIsNeverStale(s: Engine, idle: set<JobId>, now: int, timeout: nat, c: ChannelId, p: JobId)
    requires Inv(s) && Waits(s, c, p) && p in idle
    ensures p !in StaleJobs(Renewed(s, idle, now), now, timeout)
    ensures Waits(Renewed(s, idle, now), c, p)
  {
    RenewedStale(s, idle, now, timeout);
  }

  // The renewal is a heartbeat for each of them, in any order.
  function Beats(order: seq<JobId>, now: int): seq<Event> {
    if order == [] then [] else Beats(order[..|order| - 1], now) + [Heartbeat(order[|order| - 1], now)]
  }

  lemma {:induction false} BeatsRenew(maxRevisions: nat, s: Engine, order: seq<JobId>, now: int)
    requires forall j :: j in order ==> j in s.active
    ensures Legal(maxRevisions, s, Beats(order, now))
    ensures Execute(maxRevisions, s, Beats(order, now)) == s.(beats := s.beats + map j | j in order :: now)
  {
    hide RecordHeartbeat;
    if order == [] {
      assert s.beats + (map j | j in order :: now) == s.beats;
    } else {
      var n := |order| - 1;
      var front := Beats(order[..n], now);
      assert order == order[..n] + [order[n]];
      BeatsRenew(maxRevisions, s, order[..n], now);
      assert Beats(order, now)[..|front|] == front && Beats(order, now)[|front|] == Heartbeat(order[n], now);
      OneMoreBeat(s, order, now);
    }
  }

  lemma OneMoreBeat(s: Engine, order: seq<JobId>, now: int)
    requires order != [] && order[|order| - 1] in s.active
    ensures var n := |order| - 1;
      RecordHeartbeat(s.(beats := s.beats + map j | j in order[..n] :: now), order[n], now)
      == s.(beats := s.beats + map j | j in order :: now)
  {
    var n := |order| - 1;
    assert order == order[..n] + [order[n]];
    assert (s.beats + map j | j in order[..n] :: now)[order[n] := now] == s.beats + map j | j in order :: now;
  }
}
