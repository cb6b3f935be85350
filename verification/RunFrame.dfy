/** A message concerns one run: handling it leaves the records of every other
    run as they were. */
module RunFrame {
  import opened Types
  import opened Collections
  import opened Planner
  import opened Materialization
  import opened EngineSpec
  import opened EngineInv
  import opened EngineLife
  import opened Failures
  import opened Daemon
  import opened DaemonFrame
  import opened ChannelLife
  import Channels

  // The run a message is about: the run of its job or channel, or its own.
  ghost function RunOf(s: Engine, e: Event): Option<RunId> {
    match e
    case SubmitRun(r, _, _) => Some(r)
    case JobCompleted(c, _) => if c.job in s.jobs then Some(s.jobs[c.job].run) else None
    case JobFailed(j, _, _) => if j in s.jobs then Some(s.jobs[j].run) else None
    case MessageFrom(c, _, _, _) => if c in s.channels then Some(s.channels[c].run) else None
    case DoneFrom(c, _, _) => if c in s.channels then Some(s.channels[c].run) else None
    case Cancel(r, _) => Some(r)
    case _ => None
  }

  ghost predicate RunsFrame(a: Runs, b: Runs, r: RunId) {
    forall x :: x != r ==> (x in a <==> x in b) && (x in a ==> b[x] == a[x])
  }

  ghost predicate JobsFrame(a: Jobs, b: Jobs, r: RunId) {
    && (forall j :: j in a ==> j in b && b[j].run == a[j].run && (a[j].run != r ==> b[j] == a[j]))
    && (forall j :: j in b && j !in a ==> b[j].run == r)
  }

  ghost predicate ChannelsFrame(a: Chans, b: Chans, r: RunId) {
    && (forall c :: c in a ==> c in b && b[c].run == a[c].run && (a[c].run != r ==> b[c] == a[c]))
    && (forall c :: c in b && c !in a ==> b[c].run == r)
  }

  // From s to t the records of no run but r change.
  ghost predicate OnlyTouches(s: Engine, t: Engine, r: RunId) {
    RunsFrame(s.runs, t.runs, r) && JobsFrame(s.jobs, t.jobs, r) && ChannelsFrame(s.channels, t.channels, r)
  }

  lemma TouchesNothing(s: Engine, r: RunId)
    ensures OnlyTouches(s, s, r)
  {
  }

  lemma TouchesTransitive(s: Engine, t: Engine, u: Engine, r: RunId)
    requires OnlyTouches(s, t, r) && OnlyTouches(t, u, r)
    ensures OnlyTouches(s, u, r)
  {
    TransitiveJobs(s.jobs, t.jobs, u.jobs, r);
    TransitiveChannels(s.channels, t.channels, u.channels, r);
  }

  lemma TransitiveJobs(a: Jobs, b: Jobs, d: Jobs, r: RunId)
    requires JobsFrame(a, b, r) && JobsFrame(b, d, r)
    ensures JobsFrame(a, d, r)
  {
  }

  lemma TransitiveChannels(a: Chans, b: Chans, d: Chans, r: RunId)
    requires ChannelsFrame(a, b, r) && ChannelsFrame(b, d, r)
    ensures ChannelsFrame(a, d, r)
  {
  }

  // ---- Completions ----

  lemma CompletedJobsFrame(jobs: Jobs, t: Jobs, c: Completion)
    requires CompletedAt(jobs, t, c)
    ensures JobsFrame(jobs, t, jobs[c.job].run)
  {
  }

  lemma CompleteTouchesOne(s: Engine, c: Completion)
    requires Inv(s) && CompletionOk(s, c)
    ensures c.job in s.jobs && OnlyTouches(s, Complete(s, c), s.jobs[c.job].run)
  {
    hide RecordsOk, QueueOk, CapOk, AllTerminal, Promote, CompletedAt;
    var t := Complete(s, c);
    CompleteSpec(s, c);
    CompleteShape(s, c);
    CompletedJobsFrame(s.jobs, t.jobs, c);
    CheckCompletionOnly(s.runs, t.jobs, s.active[c.job]);
    CompleteKeepsChannels(s, c);
  }

  lemma RejectTouchesOne(t: Engine, j: JobId)
    requires j in t.jobs && j !in t.active
    ensures OnlyTouches(t, MarkFailed(t, j, PlanRejected), t.jobs[j].run)
  {
  }

  lemma ExtendedFrame(jobs: Jobs, t: Jobs, r: RunId)
    requires Extended(jobs, t, r)
    ensures JobsFrame(jobs, t, r)
  {
  }

  lemma {:induction false} NewChannelsRun(store: Chans, m: map<string, JobId>, r: RunId, specs: seq<PlannedChannel>)
    ensures forall c :: c in AddChannels(store, m, r, specs) && c !in store ==> AddChannels(store, m, r, specs)[c].run == r
    ensures forall c :: c in store && c.run == r && store[c].run == r ==>
      c in AddChannels(store, m, r, specs) && AddChannels(store, m, r, specs)[c].run == r
  {
    if specs != [] {
      NewChannelsRun(store, m, r, specs[..|specs| - 1]);
    }
  }

  lemma NewChannelsFrame(store: Chans, m: map<string, JobId>, r: RunId, specs: seq<PlannedChannel>)
    requires forall c :: c in store ==> store[c].run == c.run
    ensures ChannelsFrame(store, AddChannels(store, m, r, specs), r)
  {
    NewChannelsRun(store, m, r, specs);
    AddChannelsKeys(store, m, r, specs);
  }

  lemma MaterializeTouchesOne(t: Engine, r: RunId, parent: JobId, plan: Plan, ids: seq<JobId>)
    requires WellFormed(plan) && FreshIds(plan, ids, t.jobs) && SeatsOk(t)
    ensures OnlyTouches(t, MaterializePlan(t, r, parent, plan, ids), r)
  {
    hide WellFormed, JobCopies, Extended, Filter;
    var u := MaterializePlan(t, r, parent, plan, ids);
    MaterializeShape(t, r, parent, plan, ids);
    ExtendedFrame(t.jobs, u.jobs, r);
    NewChannelsFrame(t.channels, IdMap(plan.jobs, ids), r, plan.channels);
  }

  lemma ReviewTouchesOne(maxRevisions: nat, t: Engine, j: JobId, outcome: Outcome)
    requires OutcomeOk(t, outcome) && RefsOk(t.runs, t.jobs) && j in t.jobs && t.jobs[j].role.Reviewer?
    ensures OnlyTouches(t, AfterReviewer(maxRevisions, t, j, outcome), t.jobs[j].run)
  {
    hide HandleReview, Extended, RefsOk;
    if outcome.Review? {
      var u := AfterReviewer(maxRevisions, t, j, outcome);
      ReviewShape(maxRevisions, t, j, outcome.decision, outcome.coder, outcome.reviewer);
      if u == t {
        TouchesNothing(t, t.jobs[j].run);
      } else {
        ExtendedFrame(t.jobs, u.jobs, t.jobs[j].run);
      }
    } else {
      TouchesNothing(t, t.jobs[j].run);
    }
  }

  lemma PlanTouchesOne(t: Engine, r: RunId, j: JobId, outcome: Outcome)
    requires OutcomeOk(t, outcome) && SeatsOk(t) && j in t.jobs && j !in t.active && t.jobs[j].run == r
    ensures OnlyTouches(t, AfterPlanner(t, r, j, outcome), r)
  {
    hide OnlyTouches, WellFormed, MarkFailed, MaterializePlan, SeatsOk;
    RejectTouchesOne(t, j);
    TouchesNothing(t, r);
    if outcome.PlanText? && WellFormed(outcome.plan) {
      MaterializeTouchesOne(t, r, j, outcome.plan, outcome.ids);
    }
  }

  lemma CompletedSeats(s: Engine, c: Completion)
    requires Inv(s) && SeatsOk(s) && CompletionOk(s, c)
    ensures SeatsOk(Complete(s, c)) && c.job !in Complete(s, c).active
  {
    hide Inv, CompletionOk, SeatsOk;
    CompleteEvolves(s, c);
    CompleteKeepsChannels(s, c);
    SeatsStay(s, Complete(s, c));
  }

  lemma OnCompletedTouchesOne(maxRevisions: nat, s: Engine, c: Completion, outcome: Outcome)
    requires Inv(s) && SeatsOk(s) && CompletionOk(s, c) && OutcomeOk(s, outcome)
    ensures c.job in s.jobs && OnlyTouches(s, OnCompleted(maxRevisions, s, c, outcome), s.jobs[c.job].run)
  {
    hide RefsOk, DepsExact, AttemptsOk, RootsOk, QueueOk, SlotsOk, CapOk, CompletionOk, OutcomeOk, SeatsOk, OnlyTouches;
    hide MarkCompleted, AfterPlanner, AfterReviewer;
    var t, u := Complete(s, c), OnCompleted(maxRevisions, s, c, outcome);
    CompleteTouchesOne(s, c);
    CompleteShape(s, c);
    CompleteKeeps(s, c.job, c.outputs, c.promoted) by { Opened(s, c); }
    CompletedSeats(s, c);
    OutcomeStaysOk(s, t, outcome);
    var r := s.jobs[c.job].run;
    if s.jobs[c.job].role.Planner? {
      PlanTouchesOne(t, r, c.job, outcome);
      TouchesTransitive(s, t, u, r);
    } else if s.jobs[c.job].role.Reviewer? {
      ReviewTouchesOne(maxRevisions, t, c.job, outcome);
      TouchesTransitive(s, t, u, r);
    }
  }

  lemma Opened(s: Engine, c: Completion)
    requires CompletionOk(s, c)
    ensures c.job in s.active && Enumerates(c.promoted, PromotedBy(s, c.job, c.outputs))
  {
  }

  // ---- Failures ----

  lemma FailedTogetherFrame(s: Engine, t: Engine, order: seq<JobId>, r: RunId, note: Note)
    requires FailedTogether(s, t, order, r, note) && InRun(s, order, r)
    ensures RunsFrame(s.runs, t.runs, r) && JobsFrame(s.jobs, t.jobs, r)
  {
  }

  // Whoever is failed along with a job shares a channel with it, and so its run.
  lemma KilledInRun(s: Engine, j: JobId, cs: seq<ChannelId>, k: JobId)
    requires SeatsOk(s) && j in s.jobs && Enumerates(cs, ActiveChannelsOf(s, j))
    requires k in Killed(s.channels, j, cs)
    ensures k in s.jobs && s.jobs[k].run == s.jobs[j].run
    ensures forall c :: c in cs ==> c in s.channels && s.channels[c].run == s.jobs[j].run
  {
    KilledIff(s.channels, j, cs, k);
    SharedRun(s, j, cs);
    var c :| c in cs && c in s.channels && k in s.channels[c].participants;
    assert SeatOk(s.runs, s.jobs, s.channels[c]);
  }

  lemma SharedRun(s: Engine, j: JobId, cs: seq<ChannelId>)
    requires SeatsOk(s) && j in s.jobs && Enumerates(cs, ActiveChannelsOf(s, j))
    ensures forall c :: c in cs ==> c in s.channels && s.channels[c].run == s.jobs[j].run
  {
    forall c | c in cs ensures c in s.channels && s.channels[c].run == s.jobs[j].run {
      assert SeatOk(s.runs, s.jobs, s.channels[c]);
    }
  }

  lemma ClosedFrame(channels: Chans, cs: seq<ChannelId>, r: RunId)
    requires forall c :: c in cs && c in channels ==> channels[c].run == r
    ensures ChannelsFrame(channels, ClosedAt(channels, cs), r)
  {
  }

  lemma RenotedFrame(s: Engine, t: Engine, again: set<JobId>, note: Note, r: RunId)
    requires RunsFrame(s.runs, t.runs, r) && JobsFrame(s.jobs, t.jobs, r)
    requires forall k :: k in again ==> k in s.jobs && s.jobs[k].run == r
    ensures JobsFrame(s.jobs, Renoted(t.jobs, again, note), r)
  {
  }

  lemma FailPeersTouchesOne(s: Engine, j: JobId, cs: seq<ChannelId>)
    requires Inv(s) && SeatsOk(s) && j in s.active && Enumerates(cs, ActiveChannelsOf(s, j))
    requires KillsOk(s, Killed(s.channels, j, cs))
    ensures var t := FailPeers(s, j, cs);
      && j in s.jobs && OnlyTouches(s, t, s.jobs[j].run)
      && j in t.active && t.active[j] == s.jobs[j].run && j in t.jobs && t.jobs[j].run == s.jobs[j].run
  {
    hide RecordsOk, QueueOk, CapOk, FailAll, FailPeers, KillsOk, SeatsOk, ActiveChannelsOf, Killed, ClosedAt, Retryable,
      Renoted, Lost;
    var kills, again := FailureShape(s, j, cs);
    var r, note := s.jobs[j].run, Note.PeerFailed(j);
    forall k | k in kills ensures k in s.jobs && s.jobs[k].run == r && (k in s.active ==> s.active[k] == r) {
      KilledInRun(s, j, cs, k);
    }
    forall k | k in again ensures k in s.jobs && s.jobs[k].run == r {
      KilledInRun(s, j, cs, k);
    }
    FailAllTogether(s, kills, r, note);
    var t := FailAll(s, kills, note);
    FailedTogetherFrame(s, t, kills, r, note);
    RenotedFrame(s, t, again, note, r);
    SharedRun(s, j, cs);
    ClosedFrame(s.channels, cs, r);
  }

  lemma FailTouchesOne(t: Engine, j: JobId, note: Note)
    requires j in t.jobs && j in t.active && t.active[j] == t.jobs[j].run
    ensures OnlyTouches(t, MarkFailed(t, j, note), t.jobs[j].run)
  {
    hide AllTerminal, FinalOutputs, Verdict;
  }

  lemma OnFailedTouchesOne(s: Engine, j: JobId, note: Note, cs: seq<ChannelId>)
    requires Inv(s) && SeatsOk(s) && Enabled(s, JobFailed(j, note, cs))
    ensures j in s.jobs && OnlyTouches(s, OnFailed(s, j, note, cs), s.jobs[j].run)
  {
    hide Inv, SeatsOk, FailPeers, MarkFailed, KillsOk, OnlyTouches;
    FailPeersTouchesOne(s, j, cs);
    var t := FailPeers(s, j, cs);
    FailTouchesOne(t, j, note);
    TouchesTransitive(s, t, MarkFailed(t, j, note), s.jobs[j].run);
  }

  // ---- Conversations ----

  lemma {:induction false} SweepTouchesOne(s: Engine, c: ChannelId, participants: seq<JobId>, swept: seq<Completion>,
                                           r: RunId)
    requires Inv(s) && SweepOk(s, c, participants, swept)
    requires forall p :: p in participants ==> p in s.jobs && s.jobs[p].run == r
    ensures OnlyTouches(s, Sweep(s, swept), r)
    decreases |participants|
  {
    hide Inv, OnlyTouches;
    if participants == [] {
      TouchesNothing(s, r);
    } else {
      var rest, p := participants[..|participants| - 1], participants[|participants| - 1];
      assert p in participants;
      if SweepOk(s, c, rest, swept) && !Finished(Sweep(s, swept), c, p) {
        SweepTouchesOne(s, c, rest, swept, r);
      } else {
        var t, last := Sweep(s, swept[..|swept| - 1]), swept[|swept| - 1];
        SweepTouchesOne(s, c, rest, swept[..|swept| - 1], r);
        SweepKeeps(s, c, rest, swept[..|swept| - 1]);
        RunningHasSlot(t, c, p);
        CompleteTouchesOne(t, last);
        SameRunAfter(s, t, p, r);
        TouchesTransitive(s, t, Complete(t, last), r);
      }
    }
  }

  lemma RunningHasSlot(t: Engine, c: ChannelId, p: JobId)
    requires Inv(t) && Finished(t, c, p)
    ensures p in t.active
  {
  }

  lemma SameRunAfter(s: Engine, t: Engine, p: JobId, r: RunId)
    requires OnlyTouches(s, t, r) && p in s.jobs
    ensures p in t.jobs && t.jobs[p].run == s.jobs[p].run
  {
  }

  lemma TalkTouchesOne(s: Engine, t: Engine, c: ChannelId, action: Channels.Action, swept: seq<Completion>)
    requires Inv(s) && SeatsOk(s) && c in s.channels && c in t.channels
    requires t == s.(channels := s.channels[c := t.channels[c]]) && SameSeats(s.channels, t.channels)
    requires ActionOk(t, c, action, swept)
    ensures OnlyTouches(s, OnAction(t, action, swept), s.channels[c].run)
  {
    hide Inv, SweepOk;
    var r := s.channels[c].run;
    assert OnlyTouches(s, t, r);
    if action.Close? {
      SameScheduleInv(s, t);
      assert SeatOk(s.runs, s.jobs, s.channels[c]);
      SweepTouchesOne(t, c, t.channels[c].participants, swept, r);
      TouchesTransitive(s, t, Sweep(t, swept), r);
    }
  }

  lemma MessageTouchesOne(s: Engine, c: ChannelId, sender: JobId, content: string, swept: seq<Completion>)
    requires Inv(s) && SeatsOk(s) && c in s.channels && Enabled(s, MessageFrom(c, sender, content, swept))
    ensures var (t, action) := RouteMessage(s, c, sender, content);
      OnlyTouches(s, OnAction(t, action, swept), s.channels[c].run)
  {
    hide Inv, SeatsOk, ActionOk, OnAction, Channels.Route;
    var (t, action) := RouteMessage(s, c, sender, content);
    TalkSameSeats(s, c, sender, content);
    TalkTouchesOne(s, t, c, action, swept);
  }

  lemma DoneTouchesOne(s: Engine, c: ChannelId, sender: JobId, swept: seq<Completion>)
    requires Inv(s) && SeatsOk(s) && c in s.channels && Enabled(s, DoneFrom(c, sender, swept))
    ensures var (t, action) := ChannelDone(s, c, sender);
      OnlyTouches(s, OnAction(t, action, swept), s.channels[c].run)
  {
    hide Inv, SeatsOk, ActionOk, OnAction, Channels.Done;
    var (t, action) := ChannelDone(s, c, sender);
    TalkSameSeats(s, c, sender, "");
    TalkTouchesOne(s, t, c, action, swept);
  }

  // ---- Any message ----

  lemma CancelTouchesOne(s: Engine, r: RunId, order: seq<JobId>)
    requires Inv(s) && Enabled(s, Cancel(r, order))
    ensures OnlyTouches(s, CancelRun(s, r, order), r)
  {
    hide RecordsOk, QueueOk, CapOk, FailAll;
    if Undecided(s.runs, r) {
      CancelSpec(s, r, order);
    } else {
      TouchesNothing(s, r);
    }
  }

  lemma SubmitTouchesOne(s: Engine, r: RunId, root: JobId, task: string)
    requires root !in s.jobs
    ensures OnlyTouches(s, Submit(s, r, root, task), r)
  {
  }

  // Whatever a message is about, no record of another run changes, none is
  // added to it and none taken from it.
  lemma StepTouchesOne(maxRevisions: nat, s: Engine, e: Event)
    requires Inv(s) && SeatsOk(s) && Enabled(s, e) && RunOf(s, e).Some?
    ensures OnlyTouches(s, Step(maxRevisions, s, e), RunOf(s, e).value)
  {
    hide Inv, SeatsOk, OnlyTouches, OnCompleted, OnFailed, OnAction, CancelRun, Submit, RouteMessage, ChannelDone, KillsOk;
    match e
    case SubmitRun(r, root, task) => SubmitTouchesOne(s, r, root, task);
    case JobCompleted(c, outcome) => OnCompletedTouchesOne(maxRevisions, s, c, outcome);
    case JobFailed(j, note, cs) => OnFailedTouchesOne(s, j, note, cs);
    case MessageFrom(c, sender, content, swept) => MessageTouchesOne(s, c, sender, content, swept);
    case DoneFrom(c, sender, swept) => DoneTouchesOne(s, c, sender, swept);
    case Cancel(r, order) => CancelTouchesOne(s, r, order);
    case _ =>
  }
}
