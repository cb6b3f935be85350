/** The daemon's handlers over the engine, as the program has them, each proved
    to be a step of module Daemon. What comes from outside - parsed plans and
    reviews, identifiers, clocks, artifacts written for closed channels - is a
    parameter; commands to workers are left out (modules Bridge and Token). */
module DaemonImpl {
  import opened Types
  import opened Collections
  import opened Planner
  import opened Materialization
  import opened EngineSpec
  import opened EngineInv
  import opened EngineLife
  import opened Failures
  import opened Daemon
  import opened Store
  import opened EngineImpl
  import opened Database
  import opened Recovery
  import opened Restarts
  import opened Stall
  import Channels

  // What every handler promises besides: if the invariant held and the event
  // was one Daemon allows, it holds again.
  lemma HandlerKeepsInv(maxRevisions: nat, s: Engine, t: Engine, e: Event)
    requires t == Step(maxRevisions, s, e)
    ensures Inv(s) && Enabled(s, e) ==> Inv(t)
  {
    hide Inv, Enabled, Step;
    if Inv(s) && Enabled(s, e) { StepKeepsInv(maxRevisions, s, e); }
  }

  // ---- Spawning ----

  function Spawns(now: int, n: nat): seq<Event> {
    if n == 0 then [] else Spawns(now, n - 1) + [SpawnJob(now)]
  }

  lemma SpawnMore(maxRevisions: nat, s: Engine, now: int, n: nat)
    ensures Spawns(now, n + 1)[..|Spawns(now, n)|] == Spawns(now, n)
    ensures Execute(maxRevisions, s, Spawns(now, n + 1)) == Spawn(Execute(maxRevisions, s, Spawns(now, n)), now)
  {
    var more := Spawns(now, n + 1);
    assert more[..|more| - 1] == Spawns(now, n);
  }

  lemma HeadIsKnown(s: Engine)
    requires Inv(s) && s.queue != []
    ensures s.queue[0] in s.jobs
  {
    assert s.queue[0] in s.queue;
  }

  // The loop at the end of every handler. It leaves no job waiting while a
  // slot is free.
  method SpawnReadyJobs(engine: OrchestratorEngine, maxRevisions: nat, now: int) returns (ghost n: nat)
    requires engine.Valid()
    modifies engine, engine.store
    ensures engine.Valid()
    ensures engine.State() == Execute(maxRevisions, old(engine.State()), Spawns(now, n))
    ensures engine.readyQueue == [] || |engine.activeJobs| >= engine.maxConcurrency
  {
    hide Inv, EngineSpec.MarkRunning, EngineSpec.NextJob;
    n := 0;
    while true
      invariant Inv(engine.State())
      invariant engine.State() == Execute(maxRevisions, old(engine.State()), Spawns(now, n))
      decreases |engine.readyQueue|
    {
      ghost var s := engine.State();
      SpawnKeeps(s, now);
      SpawnMore(maxRevisions, old(engine.State()), now, n);
      NextShape(s);
      if s.queue != [] { HeadIsKnown(s); }
      var job := engine.NextJob();
      if job.None? {
        break;
      }
      StartShortens(engine.State(), job.value, now);
      engine.MarkRunning(job.value, now);
      n := n + 1;
    }
  }

  lemma NextShape(s: Engine)
    ensures EngineSpec.NextJob(s).1.None? && (s.queue == [] || s.queue[0] in s.jobs) ==>
      EngineSpec.NextJob(s).0 == s && (s.queue == [] || |s.active| >= s.cap)
    ensures EngineSpec.NextJob(s).1.Some? ==> |EngineSpec.NextJob(s).0.queue| < |s.queue|
  {
  }

  lemma StartShortens(s: Engine, j: JobId, now: int)
    ensures EngineSpec.MarkRunning(s, j, now).queue == s.queue
  {
  }

  // ---- A job has failed ----

  method KillPeers(engine: OrchestratorEngine, jobs: seq<JobId>, note: Note)
    modifies engine, engine.store
    ensures engine.State() == FailAll(old(engine.State()), jobs, note)
  {
    hide EngineSpec.MarkFailed;
    for i := 0 to |jobs|
      invariant engine.State() == FailAll(old(engine.State()), jobs[..i], note)
    {
      assert jobs[..i + 1][..i] == jobs[..i];
      engine.MarkFailed(jobs[i], note);
    }
    assert jobs[..|jobs|] == jobs;
  }

  method HandlePeerFailures(engine: OrchestratorEngine, j: JobId) returns (ghost cs: seq<ChannelId>)
    modifies engine, engine.store
    ensures Enumerates(cs, ActiveChannelsOf(old(engine.State()), j))
    ensures engine.State() == FailPeers(old(engine.State()), j, cs)
  {
    hide FailAll, EngineSpec.PeerFailed;
    var order := engine.store.ChannelsForJob(j);
    cs := order;
    for i := 0 to |order|
      invariant engine.State() == FailPeers(old(engine.State()), j, order[..i])
    {
      assert order[..i + 1][..i] == order[..i];
      var action := engine.HandleChannelPeerFailure(order[i], j);
      match action
      case KillParticipants(jobs) => KillPeers(engine, jobs, Note.PeerFailed(j));
      case _ =>
    }
    assert order[..|order|] == order;
  }

  method OnJobFailed(engine: OrchestratorEngine, j: JobId, note: Note) returns (ghost cs: seq<ChannelId>)
    modifies engine, engine.store
    ensures Enumerates(cs, ActiveChannelsOf(old(engine.State()), j))
    ensures engine.State() == OnFailed(old(engine.State()), j, note, cs)
    ensures old(engine.Valid()) && Enabled(old(engine.State()), JobFailed(j, note, cs)) ==> engine.Valid()
  {
    hide EngineSpec.MarkFailed, FailPeers, Inv, Enabled;
    cs := HandlePeerFailures(engine, j);
    engine.MarkFailed(j, note);
    HandlerKeepsInv(0, old(engine.State()), engine.State(), JobFailed(j, note, cs));
  }

  // ---- A job has completed ----

  method ApplyPlan(engine: OrchestratorEngine, r: RunId, j: JobId, plan: Plan, ids: seq<JobId>)
    requires |ids| == |plan.jobs|
    modifies engine, engine.store
    ensures engine.State() == AfterPlanner(old(engine.State()), r, j, PlanText(plan, ids))
  {
    hide WellFormed, EngineSpec.MarkFailed;
    var errors := ValidatePlan(plan);
    if errors != [] {
      engine.MarkFailed(j, PlanRejected);
      return;
    }
    var created := EngineImpl.MaterializePlan(engine.store, r, j, plan, ids);
    QueueReady(engine, created);
  }

  // Queue the jobs among those just created that wait for nothing.
  method QueueReady(engine: OrchestratorEngine, created: seq<JobId>)
    modifies engine`readyQueue
    ensures var jobs := engine.store.jobs;
      engine.readyQueue == old(engine.readyQueue) + Filter(created, j => j in jobs && jobs[j].status.Ready?)
  {
    var jobs := engine.store.jobs;
    ghost var isReady := j => j in jobs && jobs[j].status.Ready?;
    for i := 0 to |created|
      invariant engine.readyQueue == old(engine.readyQueue) + Filter(created[..i], isReady)
    {
      FilterSnoc(created, i, isReady);
      if created[i] in jobs && jobs[created[i]].status.Ready? {
        engine.readyQueue := engine.readyQueue + [created[i]];
      }
    }
    assert created[..|created|] == created;
    FilterAgrees(created, isReady, j => j in jobs && jobs[j].status.Ready?);
  }

  method OnJobCompleted(engine: OrchestratorEngine, maxRevisions: nat, j: JobId, outputs: seq<ArtifactId>,
                        outcome: Outcome) returns (ghost c: Completion)
    requires outcome.PlanText? ==> |outcome.ids| == |outcome.plan.jobs|
    modifies engine, engine.store
    ensures c.job == j && c.outputs == outputs
    ensures Enumerates(c.promoted, PromotedBy(old(engine.State()), j, outputs))
    ensures engine.State() == OnCompleted(maxRevisions, old(engine.State()), c, outcome)
    ensures old(engine.Valid()) && Enabled(old(engine.State()), JobCompleted(c, outcome)) ==> engine.Valid()
  {
    hide EngineSpec.MarkCompleted, EngineSpec.MarkFailed, WellFormed, HandleReview, Inv, Enabled;
    var role := if j in engine.store.jobs then Some(engine.store.jobs[j].role) else None;
    var r := if j in engine.store.jobs then engine.store.jobs[j].run else RunId(0);
    ghost var promoted := engine.MarkCompleted(j, outputs);
    c := Completion(j, outputs, promoted);
    if role == Some(Planner) {
      match outcome
      case PlanText(plan, ids) => ApplyPlan(engine, r, j, plan, ids);
      case BadText => engine.MarkFailed(j, PlanRejected);
      case _ =>
    } else if role == Some(Reviewer) {
      match outcome
      case Review(decision, coder, reviewer) =>
        var revised := engine.HandleReviewCompletion(j, decision, maxRevisions, coder, reviewer);
      case _ =>
    }
    HandlerKeepsInv(maxRevisions, old(engine.State()), engine.State(), JobCompleted(c, outcome));
  }

  // ---- Channels ----

  // outputs says which artifacts a participant leaves when its channel closes.
  method StillOpen(store: RunStore, c: ChannelId, p: JobId) returns (open: bool)
    ensures open <==> exists d :: d in store.channels && d != c && p in store.channels[d].participants
                                  && !store.channels[d].closed
  {
    var order := store.AllChannelsForJob(p);
    for i := 0 to |order|
      invariant forall k :: 0 <= k < i ==>
        order[k] in store.channels && (order[k] == c || store.channels[order[k]].closed)
    {
      assert order[i] in order;
      if order[i] != c && !store.channels[order[i]].closed {
        return true;
      }
    }
    forall d | d in store.channels && p in store.channels[d].participants
      ensures d == c || store.channels[d].closed
    {
      assert d in order;
    }
    open := false;
  }

  method CompleteClosedParticipants(engine: OrchestratorEngine, c: ChannelId, outputs: JobId -> seq<ArtifactId>)
      returns (ghost swept: seq<Completion>)
    modifies engine, engine.store
    ensures var s := old(engine.State());
      && (if c in s.channels then SweepOk(s, c, s.channels[c].participants, swept) else swept == [])
      && engine.State() == Sweep(s, swept)
  {
    hide EngineSpec.MarkCompleted;
    swept := [];
    if c !in engine.store.channels {
      return;
    }
    var participants := engine.store.channels[c].participants;
    ghost var s := engine.State();
    for i := 0 to |participants|
      invariant SweepOk(s, c, participants[..i], swept) && engine.State() == Sweep(s, swept)
      invariant forall k :: 0 <= k < |swept| ==> swept[k].job in participants[..i]
    {
      var p := participants[i];
      assert participants[..i + 1][..i] == participants[..i];
      assert participants[..i + 1] == participants[..i] + [p];
      var open := StillOpen(engine.store, c, p);
      ghost var t := engine.State();
      if p in engine.store.jobs && engine.store.jobs[p].status.Running? && !open {
        assert Finished(t, c, p);
        ghost var promoted := engine.MarkCompleted(p, outputs(p));
        ghost var last := Completion(p, outputs(p), promoted);
        SweepNext(s, c, participants[..i], swept, p, last);
        swept := swept + [last];
      } else {
        assert !Finished(t, c, p);
        SweepSkip(s, c, participants[..i], swept, p);
      }
    }
    assert participants[..|participants|] == participants;
  }

  lemma SweepNext(s: Engine, c: ChannelId, rest: seq<JobId>, swept: seq<Completion>, p: JobId, last: Completion)
    requires SweepOk(s, c, rest, swept) && Finished(Sweep(s, swept), c, p) && last.job == p
    requires Enumerates(last.promoted, PromotedBy(Sweep(s, swept), p, last.outputs))
    ensures SweepOk(s, c, rest + [p], swept + [last])
    ensures Sweep(s, swept + [last]) == Complete(Sweep(s, swept), last)
  {
    hide Complete, Finished;
    assert (rest + [p])[..|rest|] == rest && (swept + [last])[..|swept|] == swept;
  }

  lemma SweepSkip(s: Engine, c: ChannelId, rest: seq<JobId>, swept: seq<Completion>, p: JobId)
    requires SweepOk(s, c, rest, swept) && !Finished(Sweep(s, swept), c, p)
    ensures SweepOk(s, c, rest + [p], swept)
  {
    hide Complete, Finished;
    assert (rest + [p])[..|rest|] == rest;
  }

  method OnMessage(engine: OrchestratorEngine, c: ChannelId, sender: JobId, content: string,
                   outputs: JobId -> seq<ArtifactId>) returns (ghost swept: seq<Completion>)
    modifies engine, engine.store
    ensures var s := old(engine.State());
      var (t, action) := RouteMessage(s, c, sender, content);
      engine.State() == OnAction(t, action, swept) && ActionOk(t, c, action, swept)
    ensures old(engine.Valid()) ==> engine.Valid()
  {
    hide SweepOk, Sweep, Channels.Route, Inv;
    var action := engine.RouteChannelMessage(c, sender, content);
    swept := [];
    if action.Close? {
      swept := CompleteClosedParticipants(engine, c, outputs);
    }
    HandlerKeepsInv(0, old(engine.State()), engine.State(), MessageFrom(c, sender, content, swept));
  }

  method OnDone(engine: OrchestratorEngine, c: ChannelId, sender: JobId, outputs: JobId -> seq<ArtifactId>)
      returns (ghost swept: seq<Completion>)
    modifies engine, engine.store
    ensures var s := old(engine.State());
      var (t, action) := ChannelDone(s, c, sender);
      engine.State() == OnAction(t, action, swept) && ActionOk(t, c, action, swept)
    ensures old(engine.Valid()) ==> engine.Valid()
  {
    hide SweepOk, Sweep, Channels.Done, Inv;
    var action := engine.HandleChannelDone(c, sender);
    swept := [];
    if action.Close? {
      swept := CompleteClosedParticipants(engine, c, outputs);
    }
    HandlerKeepsInv(0, old(engine.State()), engine.State(), DoneFrom(c, sender, swept));
  }

  // ---- The timer ----

  method HasOpenChannel(store: RunStore, p: JobId) returns (open: bool)
    ensures open <==> exists c :: c in store.channels && p in store.channels[c].participants && !store.channels[c].closed
  {
    var order := store.AllChannelsForJob(p);
    for i := 0 to |order|
      invariant forall k :: 0 <= k < i ==> order[k] in store.channels && store.channels[order[k]].closed
    {
      assert order[i] in order;
      if !store.channels[order[i]].closed {
        return true;
      }
    }
    forall c | c in store.channels && p in store.channels[c].participants ensures store.channels[c].closed {
      assert c in order;
    }
    open := false;
  }

  // Heartbeats with those of the given jobs that are wanted renewed.
  ghost function RenewedBeats(beats: map<JobId, int>, done: seq<JobId>, wanted: set<JobId>, now: int): map<JobId, int> {
    beats + map j | j in done && j in wanted :: now
  }

  lemma RenewOne(beats: map<JobId, int>, done: seq<JobId>, wanted: set<JobId>, now: int, j: JobId)
    ensures RenewedBeats(beats, done + [j], wanted, now) ==
      if j in wanted then RenewedBeats(beats, done, wanted, now)[j := now] else RenewedBeats(beats, done, wanted, now)
  {
  }

  lemma RenewAll(s: Engine, order: seq<JobId>, idle: set<JobId>, now: int)
    requires forall j :: j in s.active ==> j in order
    ensures RenewedBeats(s.beats, order, Renewable(s, idle), now) == Renewed(s, idle, now).beats
    ensures RenewedBeats(s.beats, [], Renewable(s, idle), now) == s.beats
  {
  }

  // A worker that is idle between turns sends no heartbeats; the timer renews
  // them for it, before it looks for stale jobs.
  method RenewHeartbeats(engine: OrchestratorEngine, idle: set<JobId>, now: int)
    modifies engine`lastHeartbeat
    ensures engine.State() == Renewed(old(engine.State()), idle, now)
  {
    hide RenewedBeats;
    var order := Iterate(engine.activeJobs.Keys);
    ghost var s := engine.State();
    ghost var wanted := Renewable(s, idle);
    RenewAll(s, order, idle, now);
    for i := 0 to |order|
      invariant engine.State() == s.(beats := engine.lastHeartbeat)
      invariant engine.lastHeartbeat == RenewedBeats(s.beats, order[..i], wanted, now)
    {
      var j := order[i];
      assert j in order;
      assert order[..i + 1] == order[..i] + [j];
      RenewOne(s.beats, order[..i], wanted, now, j);
      var open := HasOpenChannel(engine.store, j);
      if j in idle && j in engine.store.jobs && engine.store.jobs[j].status.Running? && open {
        engine.RecordHeartbeat(j, now);
      }
    }
    assert order[..|order|] == order;
  }

  // ---- Cancelling a run ----

  // The unfinished jobs of the listing, failed one after the other.
  method FailUnfinished(engine: OrchestratorEngine, r: RunId) returns (ghost order: seq<JobId>)
    modifies engine, engine.store
    ensures Enumerates(order, Unfinished(old(engine.store.jobs), r))
    ensures engine.State() == FailAll(old(engine.State()), order, CancelledByUser)
  {
    hide EngineSpec.MarkFailed;
    var listed := engine.store.ListRunJobs(r);
    var before := engine.store.jobs;
    order := [];
    for i := 0 to |listed|
      invariant Distinct(order)
      invariant forall j :: j in order <==> j in listed[..i] && j in before && !Terminal(before[j].status)
      invariant engine.State() == FailAll(old(engine.State()), order, CancelledByUser)
    {
      var j := listed[i];
      assert j in listed && j !in listed[..i];
      assert listed[..i + 1] == listed[..i] + [j];
      var status := before[j].status;
      if status.Running? || status.Ready? || status.Pending? {
        engine.MarkFailed(j, CancelledByUser);
        assert (order + [j])[..|order|] == order;
        DistinctConcat(order, [j]);
        order := order + [j];
      }
    }
    assert listed[..|listed|] == listed;
  }

  method Cancel(engine: OrchestratorEngine, r: RunId) returns (ok: bool, ghost order: seq<JobId>)
    modifies engine, engine.store
    ensures ok <==> Undecided(old(engine.store.runs), r)
    ensures ok ==> Enumerates(order, Unfinished(old(engine.store.jobs), r))
    ensures engine.State() == CancelRun(old(engine.State()), r, order)
    ensures old(engine.Valid()) ==> engine.Valid()
  {
    hide FailAll, Inv;
    order := [];
    if r !in engine.store.runs {
      return false, order;
    }
    var status := engine.store.runs[r].status;
    if !status.Running? && !status.Pending? {
      return false, order;
    }
    order := FailUnfinished(engine, r);
    var jobs := engine.store.jobs;
    var foreign := j => !(j in jobs && jobs[j].run == r);
    var kept := Retain(engine.readyQueue, foreign);
    FilterAgrees(engine.readyQueue, foreign, Foreign(jobs, r));
    engine.readyQueue := kept;
    if r in engine.store.runs {
      engine.store.PutRun(r, engine.store.runs[r].(status := RunStatus.Cancelled));
    }
    ok := true;
    HandlerKeepsInv(0, old(engine.State()), engine.State(), Event.Cancel(r, order));
  }

  // ---- The end of every handler ----

  // What is ready is started, what can talk is connected, and the run the
  // message was about is written to disk.
  method FinishTurn(engine: OrchestratorEngine, db: Persistence, r: RunId, maxRevisions: nat, now: int)
      returns (ghost n: nat)
    requires engine.Valid()
    modifies engine, engine.store, db
    ensures engine.Valid()
    ensures engine.State() == ActivateChannels(Execute(maxRevisions, old(engine.State()), Spawns(now, n)))
    ensures db.Stored() == Saved(old(db.Stored()), engine.State(), r)
    ensures engine.readyQueue == [] || |engine.activeJobs| >= engine.maxConcurrency
  {
    hide Inv, Written, Execute;
    n := SpawnReadyJobs(engine, maxRevisions, now);
    ghost var s := engine.State();
    var activated := engine.ActivateReadyChannels();
    SameScheduleInv(s, engine.State());
    db.PersistRunState(engine.store, r);
  }

  // ---- A graceful shutdown ----

  lemma WithdrawOne(maxRevisions: nat, sys: Sys, runs: seq<Withdrawal>, w: Withdrawal)
    requires MayAll(maxRevisions, sys, Withdrawals(runs))
    requires May(DoAll(maxRevisions, sys, Withdrawals(runs)), Handle(Event.Cancel(w.run, w.order), true))
    ensures MayAll(maxRevisions, sys, Withdrawals(runs + [w]))
    ensures DoAll(maxRevisions, sys, Withdrawals(runs + [w]))
         == Do(maxRevisions, DoAll(maxRevisions, sys, Withdrawals(runs)), Handle(Event.Cancel(w.run, w.order), true))
  {
    hide Do, May;
    assert (runs + [w])[..|runs|] == runs;
    var acts := Withdrawals(runs + [w]);
    assert acts[..|acts| - 1] == Withdrawals(runs);
  }

  method ListUndecided(store: RunStore) returns (order: seq<RunId>)
    ensures forall r :: r in order <==> Undecided(store.runs, r)
  {
    var listed := Iterate(store.runs.Keys);
    var table := store.runs;
    var running := r => r in table && (table[r].status.Running? || table[r].status.Pending?);
    order := Retain(listed, running);
  }

  // One run is cancelled, unless it is decided, and saved.
  method CancelAndSave(engine: OrchestratorEngine, db: Persistence, maxRevisions: nat, r: RunId) returns (ghost w: Withdrawal)
    modifies engine, engine.store, db
    ensures var before, act := Sys(old(engine.State()), old(db.Stored())), Handle(Event.Cancel(r, w.order), true);
      w.run == r && May(before, act) && Sys(engine.State(), db.Stored()) == Do(maxRevisions, before, act)
  {
    hide CancelRun, Written;
    var ok, unfinished := Cancel(engine, r);
    db.PersistRunState(engine.store, r);
    w := Withdrawal(r, unfinished);
  }

  // Every run that is undecided is cancelled and saved, before the daemon exits.
  method Shutdown(engine: OrchestratorEngine, db: Persistence, maxRevisions: nat) returns (ghost runs: seq<Withdrawal>)
    modifies engine, engine.store, db
    ensures var before := Sys(old(engine.State()), old(db.Stored()));
      && MayAll(maxRevisions, before, Withdrawals(runs))
      && Sys(engine.State(), db.Stored()) == DoAll(maxRevisions, before, Withdrawals(runs))
    ensures forall r :: Undecided(old(engine.store.runs), r) <==> exists w :: w in runs && w.run == r
  {
    hide Do, May, Undecided;
    var order := ListUndecided(engine.store);
    ghost var before := Sys(engine.State(), db.Stored());
    runs := [];
    for i := 0 to |order|
      invariant |runs| == i && forall k :: 0 <= k < i ==> runs[k].run == order[k]
      invariant MayAll(maxRevisions, before, Withdrawals(runs))
      invariant Sys(engine.State(), db.Stored()) == DoAll(maxRevisions, before, Withdrawals(runs))
    {
      hide MayAll, DoAll, Withdrawals;
      ghost var w := CancelAndSave(engine, db, maxRevisions, order[i]);
      WithdrawOne(maxRevisions, before, runs, w);
      runs := runs + [w];
    }
    forall r ensures r in order <==> exists w :: w in runs && w.run == r {
      if k :| 0 <= k < |order| && order[k] == r {
        assert runs[k] in runs;
      }
      if k :| 0 <= k < |runs| && runs[k].run == r {
        assert order[k] in order;
      }
    }
  }

  // ---- Starting up from a stored state ----

  // What has been loaded so far.
  ghost predicate Loaded(stored: map<JobId, Job>, done: seq<JobId>, now: map<JobId, Job>, queue: seq<JobId>) {
    && (forall j :: j in done ==> j in stored)
    && now.Keys == (set j | j in done)
    && (forall j :: j in done ==> now[j] == RestartedJobs(stored)[j])
    && Distinct(queue)
    && (forall j :: j in queue <==> j in done && RestartedJobs(stored)[j].status.Ready?)
  }

  lemma LoadedNext(stored: map<JobId, Job>, done: seq<JobId>, now: map<JobId, Job>, queue: seq<JobId>, j: JobId)
    requires Loaded(stored, done, now, queue) && j in stored && j !in done
    ensures var b := RestartedJobs(stored)[j];
      Loaded(stored, done + [j], now[j := b], if b.status.Ready? then queue + [j] else queue)
  {
    hide RestartedJobs;
    DistinctConcat(queue, [j]);
  }

  lemma NothingLoaded(stored: map<JobId, Job>)
    ensures Loaded(stored, [], map[], [])
  {
  }

  lemma LoadedAll(stored: map<JobId, Job>, done: seq<JobId>, now: map<JobId, Job>, queue: seq<JobId>)
    requires Loaded(stored, done, now, queue) && forall j :: j in done <==> j in stored
    ensures now == RestartedJobs(stored) && Enumerates(queue, ReadyJobs(RestartedJobs(stored)))
  {
  }

  method LoadJobs(engine: OrchestratorEngine, db: Persistence) returns (ghost queue: seq<JobId>)
    requires engine.store.jobs == map[] && engine.readyQueue == []
    modifies engine`readyQueue, engine.store`jobs
    ensures engine.store.jobs == RestartedJobs(db.jobs)
    ensures engine.readyQueue == queue && Enumerates(queue, ReadyJobs(RestartedJobs(db.jobs)))
  {
    hide Loaded, RestartedJobs, ReadyJobs;
    var stored := db.jobs;
    var order := Iterate(stored.Keys);
    assert Loaded(stored, [], map[], []) by { NothingLoaded(stored); }
    for i := 0 to |order|
      invariant Loaded(stored, order[..i], engine.store.jobs, engine.readyQueue)
    {
      var j := order[i];
      assert j in order && j !in order[..i];
      assert order[..i + 1] == order[..i] + [j];
      LoadedNext(stored, order[..i], engine.store.jobs, engine.readyQueue, j);
      RecoveredIs(stored, j);
      var b := stored[j];
      if b.status.Running? {
        b := b.(error := Some(ProcessLost));
        if b.attempt < b.maxAttempts {
          b := b.(status := JobStatus.Ready);
          engine.readyQueue := engine.readyQueue + [j];
        } else {
          b := b.(status := JobStatus.Failed);
        }
      } else if b.status.Ready? {
        engine.readyQueue := engine.readyQueue + [j];
      }
      engine.store.PutJob(j, b);
    }
    assert order[..|order|] == order;
    queue := engine.readyQueue;
    LoadedAll(stored, order, engine.store.jobs, queue);
  }

  method LoadChannels(engine: OrchestratorEngine, db: Persistence)
    requires engine.store.channels == map[]
    modifies engine.store`channels
    ensures engine.store.channels == RestartedChannels(db.channels)
  {
    var stored := db.channels;
    var order := Iterate(stored.Keys);
    for i := 0 to |order|
      invariant engine.store.channels == map c | c in order[..i] && c in stored ::
        if stored[c].closed then stored[c] else stored[c].(active := false)
    {
      var c := order[i];
      assert c in order;
      assert order[..i + 1] == order[..i] + [c];
      var ch := stored[c];
      if !ch.closed {
        ch := ch.(active := false);
      }
      engine.store.PutChannel(c, ch);
    }
    assert order[..|order|] == order;
  }

  method LoadRuns(engine: OrchestratorEngine, db: Persistence)
    requires engine.store.runs == map[]
    modifies engine.store`runs
    ensures engine.store.runs == db.runs
  {
    var order := Iterate(db.runs.Keys);
    for i := 0 to |order|
      invariant engine.store.runs == map r | r in order[..i] && r in db.runs :: db.runs[r]
    {
      assert order[i] in order;
      assert order[..i + 1] == order[..i] + [order[i]];
      engine.store.PutRun(order[i], db.runs[order[i]]);
    }
    assert order[..|order|] == order;
  }

  // A fresh engine filled from the database, whatever is in it, is the
  // restarted one; and it is valid exactly if the stored records satisfy their
  // part of the invariant and no cancelled run has left a job to be queued.
  method Hydrate(db: Persistence, cap: nat) returns (engine: OrchestratorEngine, ghost queue: seq<JobId>)
    ensures Enumerates(queue, ReadyJobs(RestartedJobs(db.jobs)))
    ensures engine.State() == Restarted(db.Stored(), cap, queue)
    ensures engine.Valid() <==> RecordsOk(db.runs, db.jobs)
    ensures fresh(engine) && fresh(engine.store)
  {
    hide Inv;
    engine := new OrchestratorEngine(cap);
    LoadRuns(engine, db);
    queue := LoadJobs(engine, db);
    LoadChannels(engine, db);
    RestartKeepsInvIff(db.Stored(), cap, queue);
  }
}
