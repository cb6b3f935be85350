/** `OrchestratorEngine` and `materialize_plan` as the program has them: fields
    assigned in place, loops over hash tables. Every method is proved to take
    State() to what EngineSpec says. */
module EngineImpl {
  import opened Types
  import opened Collections
  import opened Planner
  import opened Materialization
  import opened EngineSpec
  import opened EngineInv
  import opened Store
  import opened Scheduler
  import Channels

  // ids[i] is the identifier drawn for the i-th planned job.
  method MapIds(jobs: seq<PlannedJob>, ids: seq<JobId>) returns (m: map<string, JobId>)
    requires |ids| == |jobs|
    ensures m == IdMap(jobs, ids)
  {
    m := map[];
    for i := 0 to |jobs|
      invariant m == IdMap(jobs[..i], ids[..i])
    {
      assert jobs[..i + 1][..i] == jobs[..i] && ids[..i + 1][..i] == ids[..i];
      m := m[jobs[i].local := ids[i]];
    }
    assert jobs[..|jobs|] == jobs && ids[..|jobs|] == ids;
  }

  method CreateJobs(store: RunStore, m: map<string, JobId>, r: RunId, parent: JobId, specs: seq<PlannedJob>)
      returns (created: seq<JobId>)
    requires forall i :: 0 <= i < |specs| ==> specs[i].local in m
    modifies store`jobs
    ensures store.jobs == AddJobs(old(store.jobs), m, r, parent, specs)
    ensures created == Created(m, specs)
  {
    ghost var before := store.jobs;
    created := [];
    for i := 0 to |specs|
      invariant store.jobs == AddJobs(before, m, r, parent, specs[..i])
      invariant |created| == i && forall k :: 0 <= k < i ==> created[k] == m[specs[k].local]
    {
      assert specs[..i + 1][..i] == specs[..i];
      var id := m[specs[i].local];
      store.PutJob(id, RealJob(m, r, parent, specs[i]));
      created := created + [id];
    }
    assert specs[..|specs|] == specs;
  }

  method CreateChannels(store: RunStore, m: map<string, JobId>, r: RunId, specs: seq<PlannedChannel>)
    modifies store`channels
    ensures store.channels == AddChannels(old(store.channels), m, r, specs)
  {
    ghost var before := store.channels;
    for i := 0 to |specs|
      invariant store.channels == AddChannels(before, m, r, specs[..i])
    {
      assert specs[..i + 1][..i] == specs[..i];
      store.PutChannel(ChannelId(r, specs[i].name), RealChannel(m, r, specs[i]));
    }
    assert specs[..|specs|] == specs;
  }

  method MaterializePlan(store: RunStore, r: RunId, parent: JobId, plan: Plan, ids: seq<JobId>)
      returns (created: seq<JobId>)
    requires |ids| == |plan.jobs|
    modifies store
    ensures IdMap(plan.jobs, ids).Keys == Locals(plan.jobs)
    ensures store.runs == old(store.runs)
    ensures forall i :: 0 <= i < |plan.jobs| ==> plan.jobs[i].local in IdMap(plan.jobs, ids)
    ensures store.jobs == AddJobs(old(store.jobs), IdMap(plan.jobs, ids), r, parent, plan.jobs)
    ensures store.channels == AddChannels(old(store.channels), IdMap(plan.jobs, ids), r, plan.channels)
    ensures created == Created(IdMap(plan.jobs, ids), plan.jobs)
  {
    var m := MapIds(plan.jobs, ids);
    IdMapKeys(plan.jobs, ids);
    created := CreateJobs(store, m, r, parent, plan.jobs);
    CreateChannels(store, m, r, plan.channels);
  }

  ghost function Members(order: seq<ChannelId>): set<ChannelId> {
    set c | c in order
  }

  ghost function ChannelsOfRun(channels: map<ChannelId, Channel>, r: RunId): set<ChannelId> {
    set c | c in channels && channels[c].run == r
  }

  // Those of the given channels that can be activated, and the table once they are.
  ghost function CanOpen(s: Engine, among: set<ChannelId>): set<ChannelId> {
    set c | c in among && c in s.channels && CanActivate(s, s.channels[c])
  }

  ghost function ActivatedIn(s: Engine, among: set<ChannelId>): map<ChannelId, Channel> {
    map c | c in s.channels ::
      if c in CanOpen(s, among) then s.channels[c].(active := true) else s.channels[c]
  }

  lemma NothingActivated(s: Engine)
    ensures ActivatedIn(s, {}) == s.channels && CanOpen(s, {}) == {}
  {
  }

  lemma ActivatedNext(s: Engine, done: set<ChannelId>, c: ChannelId)
    requires c in s.channels && c !in done
    ensures ActivatedIn(s, done)[c] == s.channels[c]
    ensures ActivatedIn(s, done + {c}) ==
      if CanActivate(s, s.channels[c]) then ActivatedIn(s, done)[c := s.channels[c].(active := true)]
      else ActivatedIn(s, done)
  {
  }

  // Activating the channels of other runs leaves this run's as they were.
  lemma RunUntouched(s: Engine, done: set<ChannelId>, mine: set<ChannelId>, now: Engine, r: RunId)
    requires mine == ChannelsOfRun(s.channels, r) && mine !! done
    requires now == s.(channels := ActivatedIn(s, done))
    ensures ChannelsOfRun(now.channels, r) == mine
    ensures CanOpen(now, mine) == CanOpen(s, mine) && CanOpen(s, done + mine) == CanOpen(s, done) + CanOpen(s, mine)
    ensures ActivatedIn(now, mine) == ActivatedIn(s, done + mine)
    ensures CanOpen(s, done) !! CanOpen(s, mine)
  {
    forall c | c in mine ensures CanActivate(now, now.channels[c]) <==> CanActivate(s, s.channels[c]) {
      assert now.channels[c] == s.channels[c];
    }
  }

  lemma AllActivated(s: Engine, done: set<ChannelId>)
    requires forall c :: c in done <==> c in s.channels && s.channels[c].run in s.active.Values
    ensures ActivatedIn(s, done) == ActivateChannels(s).channels
    ensures CanOpen(s, done) == set c | c in s.channels && CanActivate(s, s.channels[c])
  {
  }

  class OrchestratorEngine {
    const store: RunStore
    var readyQueue: seq<JobId>
    const maxConcurrency: nat
    var activeJobs: map<JobId, RunId>
    var lastHeartbeat: map<JobId, int>

    ghost function State(): Engine
      reads this, store
    {
      Engine(store.runs, store.jobs, store.channels, readyQueue, maxConcurrency, activeJobs, lastHeartbeat)
    }

    // What holds between the daemon's handlers.
    ghost predicate Valid()
      reads this, store
    {
      Inv(State())
    }

    constructor (maxConcurrency: nat)
      ensures State() == Init(maxConcurrency) && Valid() && fresh(store)
    {
      store := new RunStore();
      readyQueue, activeJobs, lastHeartbeat := [], map[], map[];
      this.maxConcurrency := maxConcurrency;
      new;
      InitInv(maxConcurrency);
    }

    // r and root are the identifiers the generator hands out.
    method SubmitRun(task: string, r: RunId, root: JobId)
      modifies this, store
      ensures State() == Submit(old(State()), r, root, task)
    {
      store.PutRun(r, Run(task, RunStatus.Pending, root, Artifacts(multiset{})));
      store.PutJob(root, NewJob(r, None, Planner, JobStatus.Ready, task, "planner", [], [], 0));
      readyQueue := readyQueue + [root];
    }

    method NextJob() returns (job: Option<JobId>)
      modifies this
      ensures (State(), job) == EngineSpec.NextJob(old(State()))
    {
      if |activeJobs| >= maxConcurrency || readyQueue == [] {
        return None;
      }
      var j := readyQueue[0];
      readyQueue := readyQueue[1..];
      if j !in store.jobs {
        return None;
      }
      activeJobs := activeJobs[j := store.jobs[j].run];
      job := Some(j);
    }

    method MarkRunning(j: JobId, now: int)
      modifies this, store
      ensures State() == EngineSpec.MarkRunning(old(State()), j, now)
    {
      if j !in activeJobs {
        return;
      }
      var r := activeJobs[j];
      if j in store.jobs {
        var b := store.jobs[j];
        store.PutJob(j, b.(status := JobStatus.Running, attempt := b.attempt + 1));
      }
      lastHeartbeat := lastHeartbeat[j := now];
      if r in store.runs && store.runs[r].status.Pending? {
        store.PutRun(r, store.runs[r].(status := RunStatus.Running));
      }
    }

    method RecordHeartbeat(j: JobId, now: int)
      modifies this`lastHeartbeat
      ensures State() == EngineSpec.RecordHeartbeat(old(State()), j, now)
    {
      if j in activeJobs {
        lastHeartbeat := lastHeartbeat[j := now];
      }
    }

    method StaleJobs(now: int, timeout: int) returns (stale: seq<JobId>)
      ensures Enumerates(stale, EngineSpec.StaleJobs(State(), now, timeout))
      ensures forall j :: j in stale <==>
        j in activeJobs && (j in lastHeartbeat ==> lastHeartbeat[j] + timeout < now)
    {
      var order := Iterate(activeJobs.Keys);
      stale := [];
      for i := 0 to |order|
        invariant Distinct(stale)
        invariant forall j :: j in stale <==> j in order[..i] && j in EngineSpec.StaleJobs(State(), now, timeout)
      {
        var j := order[i];
        assert order[..i + 1] == order[..i] + [j];
        assert j in order && j !in order[..i];
        if j !in lastHeartbeat || now - lastHeartbeat[j] > timeout {
          DistinctConcat(stale, [j]);
          stale := stale + [j];
        }
      }
      assert order[..|order|] == order;
    }

    // The promoted jobs are queued in the order the store lists them.
    method MarkCompleted(j: JobId, outputs: seq<ArtifactId>) returns (ghost promoted: seq<JobId>)
      modifies this, store
      ensures Enumerates(promoted, PromotedBy(old(State()), j, outputs))
      ensures State() == EngineSpec.MarkCompleted(old(State()), j, outputs, promoted)
    {
      lastHeartbeat := lastHeartbeat - {j};
      var r := if j in activeJobs then Some(activeJobs[j]) else None;
      activeJobs := activeJobs - {j};
      if j in store.jobs {
        store.PutJob(j, store.jobs[j].(status := JobStatus.Completed, outputs := outputs));
      }
      promoted := [];
      if r.Some? {
        var unblocked := PromoteUnblockedJobs(store, r.value);
        promoted := unblocked;
        for i := 0 to |unblocked|
          invariant readyQueue == old(readyQueue) + unblocked[..i]
          modifies this`readyQueue
        {
          assert unblocked[..i + 1] == unblocked[..i] + [unblocked[i]];
          readyQueue := readyQueue + [unblocked[i]];
        }
        assert unblocked[..|unblocked|] == unblocked;
        var done := CheckRunCompletion(store, r.value);
      }
    }

    method MarkFailed(j: JobId, note: Note)
      modifies this, store
      ensures State() == EngineSpec.MarkFailed(old(State()), j, note)
    {
      lastHeartbeat := lastHeartbeat - {j};
      var r := if j in activeJobs then Some(activeJobs[j]) else None;
      activeJobs := activeJobs - {j};
      if j in store.jobs {
        var b := store.jobs[j].(error := Some(note));
        if b.attempt < b.maxAttempts {
          store.PutJob(j, b.(status := JobStatus.Ready));
          readyQueue := readyQueue + [j];
        } else {
          store.PutJob(j, b.(status := JobStatus.Failed));
        }
      }
      if r.Some? {
        var done := CheckRunCompletion(store, r.value);
      }
    }

    // coderId and reviewerId are the identifiers the generator hands out.
    method HandleReviewCompletion(reviewer: JobId, decision: Decision, maxRevisions: nat,
                                  coderId: JobId, reviewerId: JobId) returns (revised: bool)
      modifies this, store
      ensures State() == HandleReview(old(State()), reviewer, decision, maxRevisions, coderId, reviewerId)
      ensures revised <==> Revision(old(State()), reviewer, decision, maxRevisions, coderId).Some?
      ensures revised && coderId != reviewerId ==>
        && reviewer in old(store.jobs) && old(store.jobs)[reviewer].deps != []
        && old(store.jobs)[reviewer].deps[0] in old(store.jobs)
        && coderId in store.jobs && reviewerId in store.jobs
        && var rev, was := old(store.jobs)[reviewer], old(store.jobs)[old(store.jobs)[reviewer].deps[0]];
           var redo, again := store.jobs[coderId], store.jobs[reviewerId];
           && redo.profile == was.profile && redo.inputs == was.outputs && redo.role == was.role && redo.parent == rev.parent
           && again.profile == rev.profile && again.inputs == [] && again.role == rev.role && again.parent == rev.parent
           && redo.deps == [] && again.deps == [coderId] && redo.round == again.round == rev.round + 1
    {
      revised := false;
      if !decision.Revise? || reviewer !in store.jobs {
        return;
      }
      var rev := store.jobs[reviewer];
      if rev.deps == [] || rev.deps[0] !in store.jobs {
        return;
      }
      var coder := store.jobs[rev.deps[0]];
      var round := rev.round + 1;
      if round > maxRevisions {
        return;
      }
      store.PutJob(coderId, NewJob(rev.run, rev.parent, coder.role, JobStatus.Ready,
                                   RevisedInstruction(coder.instruction, decision.feedback, round, maxRevisions),
                                   coder.profile, coder.outputs, [], round));
      store.PutJob(reviewerId, NewJob(rev.run, rev.parent, rev.role, JobStatus.Pending, rev.instruction,
                                      rev.profile, [], [coderId], round));
      readyQueue := readyQueue + [coderId];
      revised := true;
    }

    method AllRunning(participants: seq<JobId>) returns (yes: bool)
      ensures yes <==> forall p :: p in participants ==> p in store.jobs && store.jobs[p].status.Running?
    {
      for i := 0 to |participants|
        invariant forall p :: p in participants[..i] ==> p in store.jobs && store.jobs[p].status.Running?
      {
        assert participants[..i + 1] == participants[..i] + [participants[i]];
        if participants[i] !in store.jobs || !store.jobs[participants[i]].status.Running? {
          return false;
        }
      }
      assert participants[..|participants|] == participants;
      yes := true;
    }

    // One pass over the channels of a run with a job at work.
    method ActivateRunChannels(r: RunId) returns (activated: seq<ChannelId>)
      requires r in activeJobs.Values
      modifies store`channels
      ensures store.channels == ActivatedIn(old(State()), ChannelsOfRun(old(store.channels), r))
      ensures Enumerates(activated, CanOpen(old(State()), ChannelsOfRun(old(store.channels), r)))
    {
      ghost var before := State();
      var order := store.ListRunChannels(r);
      activated := [];
      NothingActivated(before);
      for i := 0 to |order|
        invariant store.channels == ActivatedIn(before, Members(order[..i]))
        invariant Distinct(activated)
        invariant forall c :: c in activated <==> c in CanOpen(before, Members(order[..i]))
      {
        var c := order[i];
        assert c in order && c !in order[..i];
        assert order[..i + 1] == order[..i] + [c];
        var ch := store.channels[c];
        ActivatedNext(before, Members(order[..i]), c);
        assert Members(order[..i + 1]) == Members(order[..i]) + {c};
        if !ch.active && !ch.closed {
          var allRunning := AllRunning(ch.participants);
          if allRunning {
            store.PutChannel(c, ch.(active := true));
            DistinctConcat(activated, [c]);
            activated := activated + [c];
          }
        }
      }
      assert order[..|order|] == order;
      assert Members(order) == ChannelsOfRun(before.channels, r);
    }

    method ActivateReadyChannels() returns (activated: seq<ChannelId>)
      modifies store`channels
      ensures State() == ActivateChannels(old(State()))
      ensures Enumerates(activated, set c | c in old(store.channels) && CanActivate(old(State()), old(store.channels)[c]))
      ensures forall c :: c in activated <==>
        && c in old(store.channels) && !old(store.channels)[c].active && !old(store.channels)[c].closed
        && old(store.channels)[c].run in activeJobs.Values
        && forall p :: p in old(store.channels)[c].participants ==> p in store.jobs && store.jobs[p].status.Running?
    {
      ghost var before := State();
      var runs := Iterate(activeJobs.Values);
      activated := [];
      ghost var done: set<ChannelId> := {};
      NothingActivated(before);
      for i := 0 to |runs|
        invariant done == set c | c in before.channels && before.channels[c].run in runs[..i]
        invariant store.channels == ActivatedIn(before, done)
        invariant Distinct(activated)
        invariant forall c :: c in activated <==> c in CanOpen(before, done)
      {
        assert runs[i] in runs && runs[i] !in runs[..i];
        assert runs[..i + 1] == runs[..i] + [runs[i]];
        ghost var mine := ChannelsOfRun(before.channels, runs[i]);
        RunUntouched(before, done, mine, State(), runs[i]);
        var more := ActivateRunChannels(runs[i]);
        DistinctConcat(activated, more);
        activated := activated + more;
        done := done + mine;
      }
      assert runs[..|runs|] == runs;
      AllActivated(before, done);
    }

    method RouteChannelMessage(c: ChannelId, sender: JobId, content: string) returns (action: Channels.Action)
      modifies store
      ensures (State(), action) == RouteMessage(old(State()), c, sender, content)
    {
      assert c in store.channels ==> store.channels[c := store.channels[c]] == store.channels;
      if c !in store.channels || !store.channels[c].active || sender !in store.channels[c].participants {
        return Channels.NoOp;
      }
      var ch := store.channels[c];
      if ch.mode.TurnBased? && !(ch.speaker < |ch.participants| && ch.participants[ch.speaker] == sender) {
        return Channels.NoOp;
      }
      var next := (ch.speaker + 1) % |ch.participants|;
      var round := if next == 0 then ch.round + 1 else ch.round;
      store.PutChannel(c, ch.(history := ch.history + [ChannelMessage.ChannelMessage(sender, content, ch.round)],
                              speaker := next, round := round));
      if ch.maxRounds.Some? && round >= ch.maxRounds.value {
        store.PutChannel(c, store.channels[c].(active := false, closed := true));
        assert store.channels == old(store.channels)[c := store.channels[c]];
        return Channels.Close;
      }
      match ch.mode
      case TurnBased =>
        action := Channels.SendTo(ch.participants[next], content);
      case Stream =>
        var targets := Filter(ch.participants, p => p != sender);
        if targets == [] {
          action := Channels.NoOp;
        } else if |targets| == 1 {
          action := Channels.SendTo(targets[0], content);
        } else {
          action := Channels.Broadcast(targets, content);
        }
    }

    method HandleChannelDone(c: ChannelId, sender: JobId) returns (action: Channels.Action)
      modifies store
      ensures (State(), action) == ChannelDone(old(State()), c, sender)
    {
      assert c in store.channels ==> store.channels[c := store.channels[c]] == store.channels;
      if c !in store.channels || !store.channels[c].active || sender !in store.channels[c].participants {
        return Channels.NoOp;
      }
      store.PutChannel(c, store.channels[c].(active := false, closed := true));
      action := Channels.Close;
    }

    method HandleChannelPeerFailure(c: ChannelId, failed: JobId) returns (action: Channels.Action)
      modifies store
      ensures (State(), action) == EngineSpec.PeerFailed(old(State()), c, failed)
    {
      if c !in store.channels {
        return Channels.NoOp;
      }
      var ch := store.channels[c];
      var surviving := Filter(ch.participants, p => p != failed);
      store.PutChannel(c, ch.(active := false, closed := true));
      match ch.onPeerFailure
      case KillAll =>
        action := Channels.KillParticipants(surviving);
      case Continue =>
        action := Channels.NotifyPeers(surviving, failed);
    }
  }
}
