/** The daemon as a state machine over the engine: one event for every message
    its loop reacts to. Spawning is an event of its own, so that every
    interleaving the loop can produce, and more, is covered. */
module Daemon {
  import opened Types
  import opened Collections
  import opened Planner
  import opened Materialization
  import opened EngineSpec
  import opened EngineExact
  import opened EngineInv
  import opened EngineLife
  import opened Failures
  import Channels
  import Ids

  // A job reported complete: its outputs, and the order in which the store
  // lists the jobs this promotes.
  datatype Completion = Completion(job: JobId, outputs: seq<ArtifactId>, promoted: seq<JobId>)

  // What the text of a completed job's artifact was parsed as, with the
  // identifiers drawn for the jobs it asks for.
  datatype Outcome =
    | NoText
    | BadText
    | PlanText(plan: Plan, ids: seq<JobId>)
    | Review(decision: Decision, coder: JobId, reviewer: JobId)

  datatype Event =
    | SubmitRun(run: RunId, root: JobId, task: string)
    | SpawnJob(now: int)
    | Heartbeat(beating: JobId, at: int)
    | JobCompleted(done: Completion, outcome: Outcome)
    | JobFailed(failed: JobId, note: Note, channels: seq<ChannelId>)
    | MessageFrom(channel: ChannelId, sender: JobId, content: string, swept: seq<Completion>)
    | DoneFrom(channel: ChannelId, sender: JobId, swept: seq<Completion>)
    | ActivateReady
    | Cancel(run: RunId, order: seq<JobId>)
    | Restart(stored: Records, queue: seq<JobId>)

  // ---- Completion events ----

  ghost function Complete(s: Engine, c: Completion): Engine {
    MarkCompleted(s, c.job, c.outputs, c.promoted)
  }

  ghost predicate CompletionOk(s: Engine, c: Completion) {
    c.job in s.active && Enumerates(c.promoted, PromotedBy(s, c.job, c.outputs))
  }

  ghost function AfterPlanner(s: Engine, r: RunId, j: JobId, outcome: Outcome): Engine {
    match outcome
    case PlanText(plan, ids) =>
      if !WellFormed(plan) then MarkFailed(s, j, PlanRejected)
      else if |ids| == |plan.jobs| then MaterializePlan(s, r, j, plan, ids)
      else s
    case BadText => MarkFailed(s, j, PlanRejected)
    case NoText => s
    case Review(_, _, _) => s
  }

  ghost function AfterReviewer(maxRevisions: nat, s: Engine, j: JobId, outcome: Outcome): Engine {
    match outcome
    case Review(decision, coder, reviewer) => HandleReview(s, j, decision, maxRevisions, coder, reviewer)
    case _ => s
  }

  ghost function OnCompleted(maxRevisions: nat, s: Engine, c: Completion, outcome: Outcome): Engine {
    var t := Complete(s, c);
    if c.job !in s.jobs then t
    else if s.jobs[c.job].role.Planner? then AfterPlanner(t, s.jobs[c.job].run, c.job, outcome)
    else if s.jobs[c.job].role.Reviewer? then AfterReviewer(maxRevisions, t, c.job, outcome)
    else t
  }

  // The identifiers an outcome brings are new.
  ghost predicate OutcomeOk(s: Engine, outcome: Outcome) {
    match outcome
    case PlanText(plan, ids) => WellFormed(plan) ==> FreshIds(plan, ids, s.jobs)
    case Review(_, coder, reviewer) => coder !in s.jobs && reviewer !in s.jobs && coder != reviewer
    case _ => true
  }

  // Whether the completion is that of a planner whose text is no acceptable plan.
  ghost predicate Rejects(s: Engine, j: JobId, outcome: Outcome) {
    j in s.jobs && s.jobs[j].role.Planner?
    && (outcome.BadText? || (outcome.PlanText? && !WellFormed(outcome.plan)))
  }

  // ---- Channel events ----

  // Completing the participants of a channel that has closed: those still
  // running whose other channels are closed too.
  ghost predicate Finished(s: Engine, c: ChannelId, p: JobId) {
    && p in s.jobs && s.jobs[p].status.Running?
    && forall d :: d in s.channels && d != c && p in s.channels[d].participants ==> s.channels[d].closed
  }

  ghost function Sweep(s: Engine, swept: seq<Completion>): Engine {
    if swept == [] then s else Complete(Sweep(s, swept[..|swept| - 1]), swept[|swept| - 1])
  }

  // swept is what the loop over the participants completes, in its order.
  ghost predicate SweepOk(s: Engine, c: ChannelId, participants: seq<JobId>, swept: seq<Completion>) {
    if participants == [] then swept == []
    else
      var rest, p := participants[..|participants| - 1], participants[|participants| - 1];
      || (SweepOk(s, c, rest, swept) && !Finished(Sweep(s, swept), c, p))
      || (&& swept != []
          && SweepOk(s, c, rest, swept[..|swept| - 1])
          && Finished(Sweep(s, swept[..|swept| - 1]), c, p)
          && swept[|swept| - 1].job == p
          && Enumerates(swept[|swept| - 1].promoted,
                        PromotedBy(Sweep(s, swept[..|swept| - 1]), p, swept[|swept| - 1].outputs)))
  }

  ghost function OnAction(s: Engine, action: Channels.Action, swept: seq<Completion>): Engine {
    if action.Close? then Sweep(s, swept) else s
  }

  ghost predicate ActionOk(s: Engine, c: ChannelId, action: Channels.Action, swept: seq<Completion>) {
    if action.Close? && c in s.channels then SweepOk(s, c, s.channels[c].participants, swept) else swept == []
  }

  // ---- Steps ----

  ghost function Step(maxRevisions: nat, s: Engine, e: Event): Engine {
    match e
    case SubmitRun(r, root, task) => Submit(s, r, root, task)
    case SpawnJob(now) => Spawn(s, now)
    case Heartbeat(j, now) => RecordHeartbeat(s, j, now)
    case JobCompleted(c, outcome) => OnCompleted(maxRevisions, s, c, outcome)
    case JobFailed(j, note, cs) => OnFailed(s, j, note, cs)
    case MessageFrom(c, sender, content, swept) =>
      var (t, action) := RouteMessage(s, c, sender, content);
      OnAction(t, action, swept)
    case DoneFrom(c, sender, swept) =>
      var (t, action) := ChannelDone(s, c, sender);
      OnAction(t, action, swept)
    case ActivateReady => ActivateChannels(s)
    case Cancel(r, order) => CancelRun(s, r, order)
    case Restart(stored, queue) => Restarted(stored, s.cap, queue)
  }

  // Completions and failures are reported for jobs that hold a slot; a plan is
  // rejected before anything is started because of its planner; a failure kills
  // peers that hold slots or have Failed, and none twice that would be queued;
  // identifiers are new; a restart finds records that lack no more than starts.
  ghost predicate Enabled(s: Engine, e: Event) {
    match e
    case SubmitRun(r, root, _) => r !in s.runs && root !in s.jobs
    case SpawnJob(_) => true
    case Heartbeat(_, _) => true
    case JobCompleted(c, outcome) =>
      && CompletionOk(s, c) && OutcomeOk(s, outcome)
      && (Rejects(s, c.job, outcome) ==> NobodyStarted(Complete(s, c).jobs, c.job))
    case JobFailed(j, _, cs) =>
      && j in s.active && Enumerates(cs, ActiveChannelsOf(s, j))
      && KillsOk(s, Killed(s.channels, j, cs))
    case MessageFrom(c, sender, content, swept) =>
      var (t, action) := RouteMessage(s, c, sender, content);
      ActionOk(t, c, action, swept)
    case DoneFrom(c, sender, swept) =>
      var (t, action) := ChannelDone(s, c, sender);
      ActionOk(t, c, action, swept)
    case ActivateReady => true
    case Cancel(r, order) => Undecided(s.runs, r) ==> Enumerates(order, Unfinished(s.jobs, r))
    case Restart(stored, queue) =>
      Behind(stored, s) && Enumerates(queue, ReadyJobs(RestartedJobs(stored.jobs)))
  }

  // ---- Every step keeps the invariant ----

  // -- plans

  lemma CopyDep(plan: Plan, ids: seq<JobId>, i: nat, deps: seq<JobId>, d: JobId)
      returns (k: nat)
    requires LocalsDistinct(plan.jobs) && |ids| == |plan.jobs| && Distinct(ids)
    requires i < |ids| && plan.jobs[i].local !in plan.jobs[i].deps
    requires Image(plan, ids, plan.jobs[i].deps, deps) && d in deps
    ensures k < |ids| && ids[k] == d && k != i && plan.jobs[k].local in plan.jobs[i].deps
  {
    ImageEdges(plan, ids, plan.jobs[i].deps, deps);
    k :| 0 <= k < |ids| && ids[k] == d;
  }

  lemma CopiesExtend(plan: Plan, ids: seq<JobId>, store: Jobs, after: Jobs, r: RunId, parent: JobId)
    requires WellFormed(plan) && FreshIds(plan, ids, store)
    requires after.Keys == store.Keys + (set id | id in ids)
    requires forall j :: j in store ==> after[j] == store[j]
    requires forall i :: 0 <= i < |ids| ==> JobCopies(plan, ids, r, parent, plan.jobs[i], after[ids[i]])
    ensures Extended(store, after, r)
  {
    forall i, d | 0 <= i < |ids| && d in after[ids[i]].deps
      ensures d in after && d != ids[i] && d !in store
    {
      assert JobCopies(plan, ids, r, parent, plan.jobs[i], after[ids[i]]);
      var k := CopyDep(plan, ids, i, after[ids[i]].deps, d);
      assert JobCopies(plan, ids, r, parent, plan.jobs[k], after[ids[k]]);
    }
    forall j | j in after && j !in store
      ensures after[j].run == r && AttemptOk(after[j])
      ensures after[j].status == (if after[j].deps == [] then JobStatus.Ready else JobStatus.Pending)
      ensures forall d :: d in after[j].deps ==> d in after && d != j && d !in store
    {
      var i :| 0 <= i < |ids| && ids[i] == j;
      assert JobCopies(plan, ids, r, parent, plan.jobs[i], after[ids[i]]);
    }
  }

  lemma MaterializeShape(s: Engine, r: RunId, parent: JobId, plan: Plan, ids: seq<JobId>)
    requires WellFormed(plan) && FreshIds(plan, ids, s.jobs)
    ensures var t := MaterializePlan(s, r, parent, plan, ids);
      && Extended(s.jobs, t.jobs, r)
      && t.jobs.Keys == s.jobs.Keys + (set id | id in ids)
      && (forall i :: 0 <= i < |ids| ==> JobCopies(plan, ids, r, parent, plan.jobs[i], t.jobs[ids[i]]))
      && t == s.(jobs := t.jobs, channels := t.channels,
                 queue := s.queue + Filter(ids, j => j in t.jobs && t.jobs[j].status.Ready?))
  {
    var t := MaterializePlan(s, r, parent, plan, ids);
    PlanJobsPreserved(plan, ids, s.jobs, r, parent);
    CopiesExtend(plan, ids, s.jobs, t.jobs, r, parent);
  }

  lemma ReadyAmong(jobs: Jobs, t: Jobs, ids: seq<JobId>, isReady: JobId -> bool)
    requires Distinct(ids) && t.Keys == jobs.Keys + (set id | id in ids) && forall id :: id in ids ==> id !in jobs
    requires forall j :: j in ids ==> isReady(j) == t[j].status.Ready?
    ensures Enumerates(Filter(ids, isReady), set j | j in t && j !in jobs && t[j].status.Ready?)
  {
    FilterDistinct(ids, isReady);
  }

  lemma MaterializeKeeps(s: Engine, r: RunId, parent: JobId, plan: Plan, ids: seq<JobId>)
    requires Inv(s) && Live(s.runs, r) && !Undecided(s.runs, r)
    requires WellFormed(plan) && FreshIds(plan, ids, s.jobs)
    ensures Inv(MaterializePlan(s, r, parent, plan, ids))
  {
    var t := MaterializePlan(s, r, parent, plan, ids);
    MaterializeShape(s, r, parent, plan, ids);
    var isReady := j => j in t.jobs && t.jobs[j].status.Ready?;
    ReadyAmong(s.jobs, t.jobs, ids, isReady);
    ExtendedKeeps(s, t, r, Filter(ids, isReady));
  }

  lemma ExtendedKeeps(s: Engine, t: Engine, r: RunId, ready: seq<JobId>)
    requires Inv(s) && Live(s.runs, r) && !Undecided(s.runs, r) && Extended(s.jobs, t.jobs, r)
    requires t == s.(jobs := t.jobs, channels := t.channels, queue := s.queue + ready)
    requires Enumerates(ready, set j | j in t.jobs && j !in s.jobs && t.jobs[j].status.Ready?)
    ensures Inv(t)
  {
    ExtendRecords(s.runs, s.jobs, t.jobs, r);
    ExtendSchedule(s.runs, s.jobs, t.jobs, r, s.queue, ready, s.active);
  }

  // -- reviews

  lemma ReviewShape(maxRevisions: nat, s: Engine, j: JobId, decision: Decision, coder: JobId, reviewer: JobId)
    requires RefsOk(s.runs, s.jobs) && j in s.jobs && s.jobs[j].role.Reviewer?
    requires coder !in s.jobs && reviewer !in s.jobs && coder != reviewer
    ensures var t := HandleReview(s, j, decision, maxRevisions, coder, reviewer);
      || t == s
      || (&& Extended(s.jobs, t.jobs, s.jobs[j].run)
          && t == s.(jobs := t.jobs, queue := s.queue + [coder])
          && t.jobs.Keys == s.jobs.Keys + {coder, reviewer}
          && t.jobs[coder].status.Ready? && t.jobs[reviewer].status.Pending?)
  {
    if Revision(s, j, decision, maxRevisions, coder).Some? {
      assert s.jobs[j].deps[0] in s.jobs[j].deps;
    }
  }

  predicate EndsWith(s: string, end: string) {
    |s| >= |end| && s[|s| - |end|..] == end
  }

  lemma RevisedInstructionSpec(instruction: string, feedback: string, round: nat, max: nat)
    ensures instruction <= RevisedInstruction(instruction, feedback, round, max)
    ensures EndsWith(RevisedInstruction(instruction, feedback, round, max), feedback)
  {
    var middle := "\n\n--- Reviewer feedback (revision " + Ids.Decimal(round) + "/" + Ids.Decimal(max) + ") ---\n";
    assert RevisedInstruction(instruction, feedback, round, max) == instruction + middle + feedback;
  }

  lemma ReviewKeeps(maxRevisions: nat, s: Engine, j: JobId, decision: Decision, coder: JobId, reviewer: JobId)
    requires Inv(s) && j in s.jobs && s.jobs[j].role.Reviewer?
    requires Live(s.runs, s.jobs[j].run) && !Undecided(s.runs, s.jobs[j].run)
    requires coder !in s.jobs && reviewer !in s.jobs && coder != reviewer
    ensures Inv(HandleReview(s, j, decision, maxRevisions, coder, reviewer))
  {
    hide RefsOk, AttemptsOk, DepsExact, RootsOk, QueueOk, SlotsOk, CapOk, HandleReview, Extended;
    var t := HandleReview(s, j, decision, maxRevisions, coder, reviewer);
    ReviewShape(maxRevisions, s, j, decision, coder, reviewer);
    if t != s {
      ExtendedKeeps(s, t, s.jobs[j].run, [coder]);
    }
  }

  // -- completion events

  lemma CompletionKeeps(s: Engine, c: Completion)
    requires Inv(s) && CompletionOk(s, c)
    ensures Inv(Complete(s, c))
  {
    CompleteKeeps(s, c.job, c.outputs, c.promoted);
  }

  lemma CompleteShape(s: Engine, c: Completion)
    requires Inv(s) && CompletionOk(s, c)
    ensures var t := Complete(s, c);
      && t.jobs.Keys == s.jobs.Keys && c.job in s.jobs && t.jobs[c.job].status.Completed?
      && t.jobs[c.job].role == s.jobs[c.job].role && t.jobs[c.job].run == s.jobs[c.job].run
      && t.jobs[c.job].attempt == s.jobs[c.job].attempt
      && s.active[c.job] == s.jobs[c.job].run
  {
  }

  lemma AcceptedKeeps(s: Engine, r: RunId, j: JobId, outcome: Outcome)
    requires Inv(s) && OutcomeOk(s, outcome) && !Rejects(s, j, outcome)
    requires j in s.jobs && s.jobs[j].role.Planner? && Live(s.runs, r) && !Undecided(s.runs, r)
    ensures Inv(AfterPlanner(s, r, j, outcome))
  {
    if outcome.PlanText? {
      MaterializeKeeps(s, r, j, outcome.plan, outcome.ids);
    }
  }

  // A rejection after the completion keeps the invariant exactly if nothing has
  // been started because of the planner.
  lemma RejectKeepsIff(s: Engine, j: JobId)
    requires Inv(s) && j in s.jobs && s.jobs[j].status.Completed? && Live(s.runs, s.jobs[j].run)
    ensures Inv(MarkFailed(s, j, PlanRejected)) <==> NobodyStarted(s.jobs, j)
  {
    hide RecordsOk, QueueOk, CapOk, NobodyStarted;
    assert j !in s.active;
    FailKeepsInvIff(s, j, PlanRejected);
  }

  lemma AfterReviewerKeeps(maxRevisions: nat, s: Engine, j: JobId, outcome: Outcome)
    requires Inv(s) && OutcomeOk(s, outcome)
    requires j in s.jobs && s.jobs[j].role.Reviewer?
    requires Live(s.runs, s.jobs[j].run) && !Undecided(s.runs, s.jobs[j].run)
    ensures Inv(AfterReviewer(maxRevisions, s, j, outcome))
  {
    match outcome
    case Review(decision, coder, reviewer) => ReviewKeeps(maxRevisions, s, j, decision, coder, reviewer);
    case _ =>
  }

  // New identifiers are still new once the job is marked completed.
  lemma OutcomeStaysOk(s: Engine, t: Engine, outcome: Outcome)
    requires OutcomeOk(s, outcome) && t.jobs.Keys == s.jobs.Keys
    ensures OutcomeOk(t, outcome)
  {
  }

  // Handling a completion keeps the invariant exactly if it does not reject a
  // plan after something was started because of the planner.
  lemma OnCompletedKeepsIff(maxRevisions: nat, s: Engine, c: Completion, outcome: Outcome)
    requires Inv(s) && CompletionOk(s, c) && OutcomeOk(s, outcome)
    ensures Inv(OnCompleted(maxRevisions, s, c, outcome)) <==>
      (Rejects(s, c.job, outcome) ==> NobodyStarted(Complete(s, c).jobs, c.job))
  {
    hide RecordsOk, QueueOk, SlotsOk, CapOk, MarkCompleted, AfterReviewer, Promotable, NobodyStarted, MaterializePlan, WellFormed;
    var t := Complete(s, c);
    CompleteKeeps(s, c.job, c.outputs, c.promoted);
    CompleteDecides(s, c.job, c.outputs, c.promoted);
    CompleteShape(s, c);
    OutcomeStaysOk(s, t, outcome);
    if s.jobs[c.job].role.Planner? {
      if Rejects(s, c.job, outcome) {
        RejectKeepsIff(t, c.job);
      } else {
        AcceptedKeeps(t, s.jobs[c.job].run, c.job, outcome);
      }
    } else if s.jobs[c.job].role.Reviewer? {
      AfterReviewerKeeps(maxRevisions, t, c.job, outcome);
    }
  }

  // What a completion adds to the jobs: those of an acceptable plan, if a planner
  // brings one; a coder and a reviewer, if a review asks for changes and there
  // are rounds left; nothing otherwise.
  lemma JobsAdded(maxRevisions: nat, s: Engine, c: Completion, outcome: Outcome)
    requires Inv(s) && CompletionOk(s, c) && OutcomeOk(s, outcome)
    ensures c.job in s.jobs
    ensures var b, t := s.jobs[c.job], OnCompleted(maxRevisions, s, c, outcome);
      t.jobs.Keys == s.jobs.Keys +
        (if b.role.Planner? && outcome.PlanText? && WellFormed(outcome.plan) then set id | id in outcome.ids
         else if b.role.Reviewer? && outcome.Review? && outcome.decision.Revise? && b.deps != [] && b.round < maxRevisions
         then {outcome.coder, outcome.reviewer}
         else {})
  {
    hide AttemptsOk, DepsExact, RootsOk, QueueOk, SlotsOk, CapOk, MarkCompleted, MaterializePlan, WellFormed, Extended, MarkFailed,
      RevisedInstruction;
    var t := Complete(s, c);
    CompleteShape(s, c);
    Reviewed(s, c);
    OutcomeStaysOk(s, t, outcome);
    if s.jobs[c.job].role.Planner? {
      if Rejects(s, c.job, outcome) {
        RejectionAddsNothing(t, c.job);
      } else if outcome.PlanText? {
        MaterializeShape(t, s.jobs[c.job].run, c.job, outcome.plan, outcome.ids);
      }
    }
  }

  lemma RejectionAddsNothing(t: Engine, j: JobId)
    requires j in t.jobs
    ensures MarkFailed(t, j, PlanRejected).jobs.Keys == t.jobs.Keys
  {
  }

  lemma Reviewed(s: Engine, c: Completion)
    requires Inv(s) && CompletionOk(s, c)
    ensures var t := Complete(s, c);
      && c.job in s.jobs && c.job in t.jobs
      && t.jobs[c.job].deps == s.jobs[c.job].deps && t.jobs[c.job].round == s.jobs[c.job].round
      && (s.jobs[c.job].deps != [] ==> s.jobs[c.job].deps[0] in t.jobs)
  {
    if s.jobs[c.job].deps != [] {
      assert s.jobs[c.job].deps[0] in s.jobs[c.job].deps;
    }
  }

  // -- channel events

  lemma {:induction false} SweepKeeps(s: Engine, c: ChannelId, participants: seq<JobId>, swept: seq<Completion>)
    requires Inv(s) && SweepOk(s, c, participants, swept)
    ensures Inv(Sweep(s, swept))
    decreases |participants|
  {
    if participants != [] {
      var rest, p := participants[..|participants| - 1], participants[|participants| - 1];
      if SweepOk(s, c, rest, swept) && !Finished(Sweep(s, swept), c, p) {
        SweepKeeps(s, c, rest, swept);
      } else {
        var t, last := Sweep(s, swept[..|swept| - 1]), swept[|swept| - 1];
        SweepKeeps(s, c, rest, swept[..|swept| - 1]);
        assert p in t.active;
        CompleteKeeps(t, last.job, last.outputs, last.promoted);
      }
    }
  }

  lemma ChannelEventKeeps(s: Engine, t: Engine, c: ChannelId, action: Channels.Action, swept: seq<Completion>)
    requires Inv(s) && t == s.(channels := t.channels) && ActionOk(t, c, action, swept)
    ensures Inv(OnAction(t, action, swept))
  {
    SameScheduleInv(s, t);
    if action.Close? && c in t.channels {
      SweepKeeps(t, c, t.channels[c].participants, swept);
    }
  }

  lemma HeartbeatKeeps(s: Engine, j: JobId, now: int)
    requires Inv(s)
    ensures Inv(RecordHeartbeat(s, j, now))
  {
    SameScheduleInv(s, RecordHeartbeat(s, j, now));
  }

  lemma BehindKeeps(stored: Records, s: Engine)
    requires Inv(s) && Behind(stored, s)
    ensures RecordsOk(stored.runs, stored.jobs)
  {
    BehindRecords(stored, s);
  }

  // Every step of the daemon keeps the invariant.
  lemma StepKeepsInv(maxRevisions: nat, s: Engine, e: Event)
    requires Inv(s) && Enabled(s, e)
    ensures Inv(Step(maxRevisions, s, e))
  {
    hide Inv;
    match e
    case SubmitRun(r, root, task) => SubmitKeeps(s, r, root, task);
    case SpawnJob(now) => SpawnKeeps(s, now);
    case Heartbeat(j, now) => HeartbeatKeeps(s, j, now);
    case JobCompleted(c, outcome) => OnCompletedKeepsIff(maxRevisions, s, c, outcome);
    case JobFailed(j, note, cs) => OnFailedKeeps(s, j, note, cs);
    case MessageFrom(c, sender, content, swept) =>
      var (t, action) := RouteMessage(s, c, sender, content);
      ChannelEventKeeps(s, t, c, action, swept);
    case DoneFrom(c, sender, swept) =>
      var (t, action) := ChannelDone(s, c, sender);
      ChannelEventKeeps(s, t, c, action, swept);
    case ActivateReady => SameScheduleInv(s, ActivateChannels(s));
    case Cancel(r, order) => CancelKeeps(s, r, order);
    case Restart(stored, queue) =>
      BehindKeeps(stored, s);
      RestartKeepsInvIff(stored, s.cap, queue);
  }

  // ---- Runs ----

  // The state after a history of events, and whether each was enabled in its turn.
  ghost function Execute(maxRevisions: nat, s: Engine, history: seq<Event>): Engine {
    if history == [] then s
    else
      var n := |history| - 1;
      Step(maxRevisions, Execute(maxRevisions, s, history[..n]), history[n])
  }

  ghost predicate Legal(maxRevisions: nat, s: Engine, history: seq<Event>) {
    history != [] ==>
      var n := |history| - 1;
      Legal(maxRevisions, s, history[..n]) && Enabled(Execute(maxRevisions, s, history[..n]), history[n])
  }

  lemma {:induction false} ExecuteKeepsInv(maxRevisions: nat, s: Engine, history: seq<Event>)
    requires Inv(s) && Legal(maxRevisions, s, history)
    ensures Inv(Execute(maxRevisions, s, history))
  {
    if history != [] {
      var n := |history| - 1;
      ExecuteKeepsInv(maxRevisions, s, history[..n]);
      StepKeepsInv(maxRevisions, Execute(maxRevisions, s, history[..n]), history[n]);
    }
  }

  // t comes after s in some run; a state comes up in some run from the start.
  ghost predicate Reaches(maxRevisions: nat, s: Engine, t: Engine) {
    exists history :: Legal(maxRevisions, s, history) && t == Execute(maxRevisions, s, history)
  }

  ghost predicate Reachable(maxRevisions: nat, s: Engine) {
    exists cap: nat :: Reaches(maxRevisions, Init(cap), s)
  }

  // The invariant of every reachable state.
  lemma ReachableInv(maxRevisions: nat, s: Engine)
    requires Reachable(maxRevisions, s)
    ensures Inv(s)
  {
    hide Inv, Legal, Execute;
    var cap: nat :| Reaches(maxRevisions, Init(cap), s);
    var history :| Legal(maxRevisions, Init(cap), history) && s == Execute(maxRevisions, Init(cap), history);
    InitInv(cap);
    ExecuteKeepsInv(maxRevisions, Init(cap), history);
  }

  lemma ReachesInv(maxRevisions: nat, s: Engine, t: Engine)
    requires Inv(s) && Reaches(maxRevisions, s, t)
    ensures Inv(t)
  {
    hide Inv, Legal, Execute;
    var history :| Legal(maxRevisions, s, history) && t == Execute(maxRevisions, s, history);
    ExecuteKeepsInv(maxRevisions, s, history);
  }
}
