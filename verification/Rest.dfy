/** Cancelled runs at rest: with nothing in the queue and nothing in a slot, a
    cancelled run is left alone by everything but a restart. */
module Rest {
  import opened Types
  import opened Collections
  import opened Planner
  import opened Materialization
  import opened EngineSpec
  import opened EngineExact
  import opened EngineInv
  import opened EngineLife
  import opened Failures
  import opened Daemon
  import opened DaemonFrame
  import opened Progress
  import Channels

  ghost predicate AtRest(s: Engine, r: RunId) {
    && CancelledRun(s.runs, r)
    && forall j :: j in s.jobs && s.jobs[j].run == r ==> j !in s.queue && j !in s.active
  }

  // Run r is the same in t as in s.
  ghost predicate Untouched(s: Engine, t: Engine, r: RunId) {
    && r in s.runs && r in t.runs && t.runs[r] == s.runs[r]
    && (forall j :: j in t.jobs && t.jobs[j].run == r ==> j in s.jobs && s.jobs[j].run == r)
    && (forall j :: j in s.jobs && s.jobs[j].run == r ==> j in t.jobs && t.jobs[j] == s.jobs[j])
  }

  ghost predicate Rests(s: Engine, t: Engine) {
    forall r :: AtRest(s, r) ==> AtRest(t, r) && Untouched(s, t, r)
  }

  lemma RestsReflexive(s: Engine)
    ensures Rests(s, s)
  {
  }

  lemma RestsTransitive(s: Engine, t: Engine, u: Engine)
    requires Rests(s, t) && Rests(t, u)
    ensures Rests(s, u)
  {
    hide AtRest;
    forall r | AtRest(s, r) ensures AtRest(u, r) && Untouched(s, u, r) {
      assert AtRest(t, r);
      UntouchedTransitive(s, t, u, r);
    }
  }

  lemma UntouchedTransitive(s: Engine, t: Engine, u: Engine, r: RunId)
    requires Untouched(s, t, r) && Untouched(t, u, r)
    ensures Untouched(s, u, r)
  {
  }

  lemma SameRecordsRest(s: Engine, t: Engine)
    requires t.runs == s.runs && t.jobs == s.jobs && t.queue == s.queue && t.active == s.active
    ensures Rests(s, t)
  {
  }

  // Only run x changes, in its records, in the queue and in the slots.
  ghost predicate ChangesOnly(s: Engine, t: Engine, x: RunId) {
    && (forall r :: r in s.runs && r != x ==> r in t.runs && t.runs[r] == s.runs[r])
    && (forall j :: j in t.jobs && j !in s.jobs ==> t.jobs[j].run == x)
    && (forall j :: j in s.jobs ==> j in t.jobs && t.jobs[j].run == s.jobs[j].run)
    && (forall j :: j in s.jobs && s.jobs[j].run != x ==>
          t.jobs[j] == s.jobs[j] && (j in t.queue ==> j in s.queue) && (j in t.active ==> j in s.active))
  }

  lemma OthersRest(s: Engine, t: Engine, x: RunId)
    requires ChangesOnly(s, t, x) && !AtRest(s, x)
    ensures Rests(s, t)
  {
    forall r | AtRest(s, r) ensures AtRest(t, r) && Untouched(s, t, r) {
      assert r != x;
    }
  }

  // ---- Each step ----

  lemma FailRests(s: Engine, j: JobId, note: Note)
    requires SlotsOk(s.jobs, s.active) && j in s.active
    ensures Rests(s, MarkFailed(s, j, note))
  {
    hide Rests, AtRest, AllTerminal, FinalOutputs, Verdict;
    assert j in s.jobs && s.active[j] == s.jobs[j].run;
    assert !AtRest(s, s.active[j]) by { BusyRun(s, j); }
    OthersRest(s, MarkFailed(s, j, note), s.active[j]);
  }

  lemma BusyRun(s: Engine, j: JobId)
    requires j in s.jobs && (j in s.active || j in s.queue)
    ensures !AtRest(s, s.jobs[j].run)
  {
  }

  lemma {:induction false} FailAllRests(s: Engine, order: seq<JobId>, note: Note)
    requires Inv(s) && Distinct(order) && Elements(order) <= s.active.Keys
    ensures Rests(s, FailAll(s, order, note))
  {
    hide RecordsOk, QueueOk, SlotsOk, CapOk, MarkFailed, Rests;
    if order == [] {
      RestsReflexive(s);
    } else {
      var n := |order| - 1;
      Last(order, n);
      FailAllRests(s, order[..n], note);
      FailAllKeeps(s, order[..n], note);
      FailRests(FailAll(s, order[..n], note), order[n], note);
      RestsTransitive(s, FailAll(s, order[..n], note), FailAll(s, order, note));
    }
  }

  lemma RenotedRests(s: Engine, t: Engine, again: set<JobId>, note: Note)
    requires Rests(s, t) && forall k :: k in again ==> Lost(s, k)
    ensures Rests(s, t.(jobs := Renoted(t.jobs, again, note)))
  {
    var u := t.(jobs := Renoted(t.jobs, again, note));
    forall r | AtRest(s, r) ensures AtRest(u, r) && Untouched(s, u, r) {
      assert AtRest(t, r) && Untouched(s, t, r);
      forall j | j in t.jobs && t.jobs[j].run == r ensures j !in again {
        assert j in s.jobs && s.jobs[j].run == r;
      }
    }
  }

  lemma OnFailedRests(s: Engine, j: JobId, note: Note, cs: seq<ChannelId>)
    requires Inv(s) && Enabled(s, JobFailed(j, note, cs))
    ensures Rests(s, OnFailed(s, j, note, cs))
  {
    hide RecordsOk, QueueOk, CapOk, FailAll, FailPeers, MarkFailed, KillsOk, Rests, Renoted;
    var kills, again := FailureShape(s, j, cs);
    var peer := Note.PeerFailed(j);
    var killed, u := FailAll(s, kills, peer), FailPeers(s, j, cs);
    var t := killed.(jobs := Renoted(killed.jobs, again, peer));
    FailAllKeeps(s, kills, peer);
    FailAllRests(s, kills, peer);
    RenotedKeeps(killed, again, peer);
    RenotedRests(s, killed, again, peer);
    SameScheduleInv(t, u);
    SameRecordsRest(t, u);
    FailRests(u, j, note);
    RestsTransitive(s, t, u);
    RestsTransitive(s, u, MarkFailed(u, j, note));
  }

  lemma CompleteRests(s: Engine, c: Completion)
    requires Inv(s) && CompletionOk(s, c)
    ensures Rests(s, Complete(s, c))
  {
    hide RecordsOk, QueueOk, CapOk, Rests, AtRest, AllTerminal, FinalOutputs, Verdict, DepsDone;
    var t := Complete(s, c);
    CompleteSpec(s, c);
    BusyRun(s, c.job);
    CheckCompletionOnly(s.runs, t.jobs, s.active[c.job]);
    OthersRest(s, t, s.jobs[c.job].run);
  }

  lemma {:induction false} SweepRests(s: Engine, c: ChannelId, participants: seq<JobId>, swept: seq<Completion>)
    requires Inv(s) && SweepOk(s, c, participants, swept)
    ensures Rests(s, Sweep(s, swept))
    decreases |participants|
  {
    hide RecordsOk, QueueOk, CapOk, MarkCompleted, Rests;
    if participants == [] {
      RestsReflexive(s);
    } else {
      var rest, p := participants[..|participants| - 1], participants[|participants| - 1];
      if SweepOk(s, c, rest, swept) && !Finished(Sweep(s, swept), c, p) {
        SweepRests(s, c, rest, swept);
      } else {
        var t, last := Sweep(s, swept[..|swept| - 1]), swept[|swept| - 1];
        SweepRests(s, c, rest, swept[..|swept| - 1]);
        SweepKeeps(s, c, rest, swept[..|swept| - 1]);
        assert p in t.active;
        CompleteRests(t, last);
        RestsTransitive(s, t, Complete(t, last));
      }
    }
  }

  lemma LiveIsNotAtRest(s: Engine, r: RunId)
    requires Live(s.runs, r)
    ensures !AtRest(s, r)
  {
  }

  lemma RejectRests(t: Engine, j: JobId)
    requires j in t.jobs && j !in t.active && Live(t.runs, t.jobs[j].run)
    ensures Rests(t, MarkFailed(t, j, PlanRejected))
  {
    hide Rests, AtRest;
    LiveIsNotAtRest(t, t.jobs[j].run);
    OthersRest(t, MarkFailed(t, j, PlanRejected), t.jobs[j].run);
  }

  lemma ExtendedRests(s: Engine, t: Engine, r: RunId, more: seq<JobId>)
    requires Extended(s.jobs, t.jobs, r) && t.runs == s.runs && t.active == s.active && Live(s.runs, r)
    requires t.queue == s.queue + more && forall j :: j in more ==> j !in s.jobs
    ensures Rests(s, t)
  {
    hide Rests, AtRest;
    LiveIsNotAtRest(s, r);
    OthersRest(s, t, r);
  }

  lemma AcceptedRests(t: Engine, r: RunId, j: JobId, outcome: Outcome)
    requires OutcomeOk(t, outcome) && j in t.jobs && t.jobs[j].role.Planner? && !Rejects(t, j, outcome) && Live(t.runs, r)
    ensures Rests(t, AfterPlanner(t, r, j, outcome))
  {
    hide Rests, MaterializePlan, JobOk, Extended, JobCopies, MarkFailed;
    if outcome.PlanText? {
      MaterializeShape(t, r, j, outcome.plan, outcome.ids);
      var u := AfterPlanner(t, r, j, outcome);
      ExtendedRests(t, u, r, Filter(outcome.ids, x => x in u.jobs && u.jobs[x].status.Ready?));
    } else {
      RestsReflexive(t);
    }
  }

  lemma AfterReviewerRests(maxRevisions: nat, t: Engine, j: JobId, outcome: Outcome)
    requires OutcomeOk(t, outcome) && RefsOk(t.runs, t.jobs) && j in t.jobs && t.jobs[j].role.Reviewer?
    requires Live(t.runs, t.jobs[j].run)
    ensures Rests(t, AfterReviewer(maxRevisions, t, j, outcome))
  {
    hide Rests, HandleReview, Extended, RefsOk;
    RestsReflexive(t);
    if outcome.Review? {
      var u := AfterReviewer(maxRevisions, t, j, outcome);
      ReviewShape(maxRevisions, t, j, outcome.decision, outcome.coder, outcome.reviewer);
      if u != t {
        ExtendedRests(t, u, t.jobs[j].run, [outcome.coder]);
      }
    }
  }

  lemma OnCompletedRests(maxRevisions: nat, s: Engine, c: Completion, outcome: Outcome)
    requires Inv(s) && CompletionOk(s, c) && OutcomeOk(s, outcome)
    ensures Rests(s, OnCompleted(maxRevisions, s, c, outcome))
  {
    hide AttemptsOk, DepsExact, RootsOk, QueueOk, SlotsOk, CapOk, Rests, AfterReviewer, OutcomeOk, CompletionOk, MarkCompleted,
      WellFormed, MaterializePlan;
    var t, u := Complete(s, c), OnCompleted(maxRevisions, s, c, outcome);
    CompleteRests(s, c);
    CompletionKeeps(s, c);
    CompleteShape(s, c);
    Slotted(s, c);
    OutcomeStaysOk(s, t, outcome);
    if s.jobs[c.job].role.Planner? {
      if Rejects(s, c.job, outcome) {
        RejectRests(t, c.job);
      } else {
        AcceptedRests(t, s.jobs[c.job].run, c.job, outcome);
      }
      RestsTransitive(s, t, u);
    } else if s.jobs[c.job].role.Reviewer? {
      AfterReviewerRests(maxRevisions, t, c.job, outcome);
      RestsTransitive(s, t, u);
    }
  }

  lemma Slotted(s: Engine, c: Completion)
    requires Inv(s) && CompletionOk(s, c)
    ensures c.job in s.active && c.job !in Complete(s, c).active
    ensures s.active[c.job] == s.jobs[c.job].run && Live(Complete(s, c).runs, s.active[c.job])
  {
    CompleteDecides(s, c.job, c.outputs, c.promoted);
  }

  lemma SpawnRests(s: Engine, now: int)
    requires Inv(s)
    ensures Rests(s, Spawn(s, now))
  {
    hide Inv, Spawn, DepsDone, Rests, AtRest;
    SpawnShape(s, now);
    if Picked(s).Some? {
      StartedIsUnblocked(s, now);
      BusyRun(s, s.queue[0]);
      OthersRest(s, Spawn(s, now), s.jobs[s.queue[0]].run);
    } else {
      RestsReflexive(s);
    }
  }

  lemma CancelRests(s: Engine, r: RunId, order: seq<JobId>)
    requires Inv(s) && Enabled(s, Cancel(r, order))
    ensures Rests(s, CancelRun(s, r, order))
  {
    hide RecordsOk, QueueOk, CapOk, FailAll, Rests, AtRest;
    if Undecided(s.runs, r) {
      CancelSpec(s, r, order);
      LiveIsNotAtRest(s, r);
      OthersRest(s, CancelRun(s, r, order), r);
    } else {
      RestsReflexive(s);
    }
  }

  lemma SubmitRests(s: Engine, r: RunId, root: JobId, task: string)
    requires QueueOk(s.runs, s.jobs, s.queue) && r !in s.runs && root !in s.jobs
    ensures Rests(s, Submit(s, r, root, task))
  {
    hide Rests, AtRest;
    assert !AtRest(s, r) by { Unknown(s, r); }
    OthersRest(s, Submit(s, r, root, task), r);
  }

  lemma Unknown(s: Engine, r: RunId)
    requires r !in s.runs
    ensures !AtRest(s, r)
  {
  }

  lemma OnActionRests(s: Engine, t: Engine, c: ChannelId, action: Channels.Action, swept: seq<Completion>)
    requires Inv(s) && t == s.(channels := t.channels) && ActionOk(t, c, action, swept)
    ensures Rests(s, OnAction(t, action, swept))
  {
    hide Inv, Rests;
    SameScheduleInv(s, t);
    SameRecordsRest(s, t);
    if action.Close? && c in t.channels {
      SweepRests(t, c, t.channels[c].participants, swept);
      RestsTransitive(s, t, Sweep(t, swept));
    } else if action.Close? {
      assert Sweep(t, []) == t;
    }
  }

  // Whatever the event, short of a restart.
  lemma StepRests(maxRevisions: nat, s: Engine, e: Event)
    requires Inv(s) && Enabled(s, e) && !e.Restart?
    ensures Rests(s, Step(maxRevisions, s, e))
  {
    hide RecordsOk, QueueOk, SlotsOk, CapOk, OnCompleted, OnFailed, OnAction, CancelRun, Spawn, Rests, Submit, KillsOk;
    match e
    case SubmitRun(r, root, task) => SubmitRests(s, r, root, task);
    case SpawnJob(now) => SpawnRests(s, now);
    case Heartbeat(j, now) => SameRecordsRest(s, RecordHeartbeat(s, j, now));
    case JobCompleted(c, outcome) => OnCompletedRests(maxRevisions, s, c, outcome);
    case JobFailed(j, note, cs) => OnFailedRests(s, j, note, cs);
    case MessageFrom(c, sender, content, swept) =>
      var (t, action) := RouteMessage(s, c, sender, content);
      OnActionRests(s, t, c, action, swept);
    case DoneFrom(c, sender, swept) =>
      var (t, action) := ChannelDone(s, c, sender);
      OnActionRests(s, t, c, action, swept);
    case ActivateReady => SameRecordsRest(s, ActivateChannels(s));
    case Cancel(r, order) => CancelRests(s, r, order);
  }

  ghost predicate Session(history: seq<Event>) {
    forall e :: e in history ==> !e.Restart?
  }

  // Hence over any history of a session.
  lemma {:induction false} SessionRests(maxRevisions: nat, s: Engine, history: seq<Event>)
    requires Inv(s) && Legal(maxRevisions, s, history) && Session(history)
    ensures Rests(s, Execute(maxRevisions, s, history))
  {
    hide Inv, Enabled, Step, Rests;
    if history == [] {
      RestsReflexive(s);
    } else {
      var n := |history| - 1;
      var t := Execute(maxRevisions, s, history[..n]);
      assert Session(history[..n]) && history[n] in history;
      SessionRests(maxRevisions, s, history[..n]);
      ExecuteKeepsInv(maxRevisions, s, history[..n]);
      StepRests(maxRevisions, t, history[n]);
      RestsTransitive(s, t, Step(maxRevisions, t, history[n]));
    }
  }
}
