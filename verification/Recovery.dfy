/** The daemon and its database. What is stored is written run by run, so the
    records of different runs are of different ages when the daemon is killed.
    Recovery is shown to restore the invariant from records of any ages; and if
    every message is saved with its run, as the daemon does, a kill loses no
    more than starts, and the engine goes through a history of Daemon. */
module Recovery {
  import opened Types
  import opened Collections
  import opened Planner
  import opened Materialization
  import opened EngineSpec
  import opened EngineInv
  import opened EngineLife
  import opened Failures
  import opened Daemon
  import opened DaemonFrame
  import opened Progress
  import opened ChannelLife
  import opened RunFrame
  import opened Starts
  import Channels

  datatype Sys = Sys(engine: Engine, disk: Records)

  ghost function Fresh(cap: nat): Sys {
    Sys(Init(cap), Records(map[], map[], map[]))
  }

  // The database once the run, its jobs and its channels are written to it.
  ghost function Saved(disk: Records, s: Engine, r: RunId): Records {
    Written(disk, s.runs, s.jobs, s.channels, r)
  }

  ghost function Written(disk: Records, runs: Runs, jobs: Jobs, channels: Chans, r: RunId): Records {
    Records(if r in runs then disk.runs[r := runs[r]] else disk.runs,
            disk.jobs + (map j | j in jobs && jobs[j].run == r :: jobs[j]),
            disk.channels + (map c | c in channels && channels[c].run == r :: channels[c]))
  }

  // The daemon handles a message, and saves the run concerned or fails to;
  // saves a run at any other time; or is killed and started again.
  datatype Act = Handle(event: Event, saved: bool) | Save(run: RunId) | Kill(queue: seq<JobId>)

  ghost function Do(maxRevisions: nat, sys: Sys, act: Act): Sys {
    match act
    case Handle(e, saved) =>
      var t, r := Step(maxRevisions, sys.engine, e), RunOf(sys.engine, e);
      Sys(t, if saved && r.Some? then Saved(sys.disk, t, r.value) else sys.disk)
    case Save(r) => sys.(disk := Saved(sys.disk, sys.engine, r))
    case Kill(queue) => sys.(engine := Restarted(sys.disk, sys.engine.cap, queue))
  }

  ghost predicate May(sys: Sys, act: Act) {
    match act
    case Handle(e, _) => !e.Restart? && Enabled(sys.engine, e)
    case Save(_) => true
    case Kill(queue) => Enumerates(queue, ReadyJobs(RestartedJobs(sys.disk.jobs)))
  }

  ghost function DoAll(maxRevisions: nat, sys: Sys, acts: seq<Act>): Sys {
    if acts == [] then sys else Do(maxRevisions, DoAll(maxRevisions, sys, acts[..|acts| - 1]), acts[|acts| - 1])
  }

  ghost predicate MayAll(maxRevisions: nat, sys: Sys, acts: seq<Act>) {
    acts != [] ==>
      && MayAll(maxRevisions, sys, acts[..|acts| - 1])
      && May(DoAll(maxRevisions, sys, acts[..|acts| - 1]), acts[|acts| - 1])
  }

  // ---- Records of any ages ----

  // What is stored is of jobs the engine knows.
  ghost predicate Covers(s: Engine, disk: Records) {
    forall j :: j in disk.jobs ==> j in s.jobs && s.jobs[j].run == disk.jobs[j].run
  }

  ghost predicate SysInv(sys: Sys) {
    Inv(sys.engine) && RecordsOk(sys.disk.runs, sys.disk.jobs) && Covers(sys.engine, sys.disk)
  }

  // Which age each stored record has after saving a run.
  ghost predicate Spliced(disk: Records, s: Engine, r: RunId, t: Records) {
    && (forall x :: x in t.runs <==> x in disk.runs || (x == r && r in s.runs))
    && (forall x :: x in t.runs ==> t.runs[x] == if x == r && r in s.runs then s.runs[r] else disk.runs[x])
    && (forall j :: j in t.jobs <==> j in disk.jobs || (j in s.jobs && s.jobs[j].run == r))
    && (forall j :: j in t.jobs ==>
          j in s.jobs && t.jobs[j].run == s.jobs[j].run
          && t.jobs[j] == if s.jobs[j].run == r then s.jobs[j] else disk.jobs[j])
  }

  lemma SavedIsSpliced(disk: Records, s: Engine, r: RunId)
    requires Covers(s, disk)
    ensures Spliced(disk, s, r, Saved(disk, s, r))
  {
  }

  lemma SplicedRefs(disk: Records, s: Engine, r: RunId, t: Records)
    requires Spliced(disk, s, r, t) && Covers(s, disk)
    requires RefsOk(disk.runs, disk.jobs) && RefsOk(s.runs, s.jobs)
    ensures RefsOk(t.runs, t.jobs)
  {
    forall j, d | j in t.jobs && d in t.jobs[j].deps
      ensures d in t.jobs && d != j && t.jobs[d].run == t.jobs[j].run
    {
      if s.jobs[j].run == r {
        assert d in s.jobs[j].deps;
      } else {
        assert d in disk.jobs[j].deps;
      }
    }
  }

  lemma SplicedDeps(disk: Records, s: Engine, r: RunId, t: Records)
    requires Spliced(disk, s, r, t) && Covers(s, disk)
    requires RefsOk(disk.runs, disk.jobs) && RefsOk(s.runs, s.jobs)
    requires DepsExact(disk.jobs) && DepsExact(s.jobs)
    ensures DepsExact(t.jobs)
  {
    forall j | j in t.jobs
      ensures t.jobs[j].status.Pending? <==> !DepsDone(t.jobs, t.jobs[j].deps)
    {
      if s.jobs[j].run == r {
        DepsDoneAgrees(s.jobs, t.jobs, s.jobs[j].deps);
        assert s.jobs[j].status.Pending? <==> !DepsDone(s.jobs, s.jobs[j].deps);
      } else {
        DepsDoneAgrees(disk.jobs, t.jobs, disk.jobs[j].deps);
        assert disk.jobs[j].status.Pending? <==> !DepsDone(disk.jobs, disk.jobs[j].deps);
      }
    }
  }

  lemma SplicedAttempts(disk: Records, s: Engine, r: RunId, t: Records)
    requires Spliced(disk, s, r, t) && AttemptsOk(disk.jobs) && AttemptsOk(s.jobs)
    ensures AttemptsOk(t.jobs)
  {
    hide AttemptOk;
    forall j | j in t.jobs ensures AttemptOk(t.jobs[j]) {
      if s.jobs[j].run == r {
        assert AttemptOk(s.jobs[j]);
      } else {
        assert AttemptOk(disk.jobs[j]);
      }
    }
  }

  lemma SplicedRoots(disk: Records, s: Engine, r: RunId, t: Records)
    requires Spliced(disk, s, r, t) && RefsOk(s.runs, s.jobs)
    requires RootsOk(disk.runs, disk.jobs) && RootsOk(s.runs, s.jobs)
    ensures RootsOk(t.runs, t.jobs)
  {
    forall j | j in t.jobs && (Undecided(t.runs, t.jobs[j].run) || CancelledRun(t.runs, t.jobs[j].run))
      ensures j == t.runs[t.jobs[j].run].root && t.jobs[j].role.Planner?
    {
      assert s.jobs[j].run == r ==> r in s.runs;
    }
  }

  lemma SaveKeepsRecords(disk: Records, s: Engine, r: RunId)
    requires RecordsOk(disk.runs, disk.jobs) && RecordsOk(s.runs, s.jobs) && Covers(s, disk)
    ensures RecordsOk(Saved(disk, s, r).runs, Saved(disk, s, r).jobs) && Covers(s, Saved(disk, s, r))
  {
    hide RefsOk, DepsExact, AttemptsOk, RootsOk, Saved;
    var t := Saved(disk, s, r);
    SavedIsSpliced(disk, s, r);
    SplicedRefs(disk, s, r, t);
    SplicedDeps(disk, s, r, t);
    SplicedAttempts(disk, s, r, t);
    SplicedRoots(disk, s, r, t);
  }

  lemma EvolvedCovers(s: Engine, t: Engine, disk: Records)
    requires Covers(s, disk) && Evolves(s, t)
    ensures Covers(t, disk)
  {
  }

  lemma RestartedCovers(disk: Records, cap: nat, queue: seq<JobId>)
    ensures Covers(Restarted(disk, cap, queue), disk)
  {
  }

  lemma DoKeepsInv(maxRevisions: nat, sys: Sys, act: Act)
    requires SysInv(sys) && May(sys, act)
    ensures SysInv(Do(maxRevisions, sys, act))
  {
    hide Inv, RecordsOk, Covers, Saved, Restarted, Step, Enabled, Evolves, RunOf;
    assert forall s: Engine :: Inv(s) ==> RecordsOk(s.runs, s.jobs) by { RecordsPart(); }
    match act
    case Handle(e, saved) =>
      var t := Step(maxRevisions, sys.engine, e);
      StepKeepsInv(maxRevisions, sys.engine, e);
      StepEvolves(maxRevisions, sys.engine, e);
      EvolvedCovers(sys.engine, t, sys.disk);
      if saved && RunOf(sys.engine, e).Some? {
        SaveKeepsRecords(sys.disk, t, RunOf(sys.engine, e).value);
      }
    case Save(r) => SaveKeepsRecords(sys.disk, sys.engine, r);
    case Kill(queue) =>
      RestartKeepsInvIff(sys.disk, sys.engine.cap, queue);
      RestartedCovers(sys.disk, sys.engine.cap, queue);
  }

  lemma RecordsPart()
    ensures forall s: Engine :: Inv(s) ==> RecordsOk(s.runs, s.jobs)
  {
  }

  lemma {:induction false} ActsKeepInv(maxRevisions: nat, sys: Sys, acts: seq<Act>)
    requires SysInv(sys) && MayAll(maxRevisions, sys, acts)
    ensures SysInv(DoAll(maxRevisions, sys, acts))
  {
    hide SysInv, Do, May;
    if acts != [] {
      ActsKeepInv(maxRevisions, sys, acts[..|acts| - 1]);
      DoKeepsInv(maxRevisions, DoAll(maxRevisions, sys, acts[..|acts| - 1]), acts[|acts| - 1]);
    }
  }

  // However old the stored records of each run are, and whichever saves were
  // missed: the engine satisfies the invariant throughout, and a daemon killed
  // now comes back to one that does.
  lemma AnyAgesRecover(maxRevisions: nat, cap: nat, acts: seq<Act>, queue: seq<JobId>)
    requires MayAll(maxRevisions, Fresh(cap), acts)
    requires Enumerates(queue, ReadyJobs(RestartedJobs(DoAll(maxRevisions, Fresh(cap), acts).disk.jobs)))
    ensures var sys := DoAll(maxRevisions, Fresh(cap), acts);
      Inv(sys.engine) && Inv(Restarted(sys.disk, sys.engine.cap, queue))
  {
    hide Inv, DoAll, MayAll, Restarted;
    InitInv(cap);
    ActsKeepInv(maxRevisions, Fresh(cap), acts);
    var sys := DoAll(maxRevisions, Fresh(cap), acts);
    RestartKeepsInvIff(sys.disk, sys.engine.cap, queue);
  }

  // That a run is saved as a whole is needed: with a completion stored but not
  // the promotions it brought, recovery leaves a job waiting for nothing.
  lemma TornSaveBreaks(s: Engine, c: Completion, k: JobId, queue: seq<JobId>)
    requires Inv(s) && CompletionOk(s, c) && k in c.promoted
    ensures var torn := RecordsOf(s).(jobs := s.jobs[c.job := Complete(s, c).jobs[c.job]]);
      var t := Restarted(torn, s.cap, queue);
      && !Inv(t)
      && k in t.jobs && t.jobs[k].status.Pending? && DepsDone(t.jobs, t.jobs[k].deps) && Live(t.runs, t.jobs[k].run)
  {
    hide AttemptsOk, QueueOk, CapOk, CheckCompletion, DepsDone;
    var done := Completing(s.jobs, c.job, c.outputs);
    CompleteSpec(s, c);
    var torn := RecordsOf(s).(jobs := s.jobs[c.job := Complete(s, c).jobs[c.job]]);
    assert torn.jobs == done;
    var t := Restarted(torn, s.cap, queue);
    assert k in Promotable(done, s.active[c.job]);
    assert Live(s.runs, s.jobs[k].run) by { TwoJobsLive(s, c.job, k); }
    RecoveredIs(torn.jobs, k);
    TornDeps(done, done[k].deps);
    assert t.jobs[k].status.Pending?;
  }

  lemma TwoJobsLive(s: Engine, j: JobId, k: JobId)
    requires RefsOk(s.runs, s.jobs) && RootsOk(s.runs, s.jobs)
    requires j in s.jobs && k in s.jobs && j != k && s.jobs[j].run == s.jobs[k].run
    ensures Live(s.runs, s.jobs[k].run)
  {
  }

  lemma TornDeps(jobs: Jobs, deps: seq<JobId>)
    requires DepsDone(jobs, deps)
    ensures DepsDone(RestartedJobs(jobs), deps)
  {
    DepsDoneAgrees(jobs, RestartedJobs(jobs), deps);
  }

  // ---- Prompt saving ----

  // What is stored of a job may lack that it was recovered, and a start.
  ghost predicate JobLags(b: Job, c: Job) {
    c == b || c == Recovered(b) || StartLost(Recovered(b), c)
  }

  ghost predicate RunLags(disk: Records, s: Engine, r: RunId)
    requires r in disk.runs && r in s.runs && disk.jobs.Keys == s.jobs.Keys
  {
    || disk.runs[r] == s.runs[r]
    || (&& disk.runs[r].status.Pending? && s.runs[r] == disk.runs[r].(status := RunStatus.Running)
        && exists j :: j in s.jobs && s.jobs[j].run == r && StartLost(Recovered(disk.jobs[j]), s.jobs[j]))
  }

  // Of a channel it may lack whether it is active.
  ghost predicate ChannelLags(a: Channel, b: Channel) {
    b == a || (!a.closed && b == a.(active := b.active))
  }

  ghost predicate Lags(disk: Records, s: Engine) {
    && disk.runs.Keys == s.runs.Keys && disk.jobs.Keys == s.jobs.Keys && disk.channels.Keys == s.channels.Keys
    && (forall j :: j in s.jobs ==> JobLags(disk.jobs[j], s.jobs[j]))
    && (forall r :: r in s.runs ==> RunLags(disk, s, r))
    && (forall c :: c in s.channels ==> ChannelLags(disk.channels[c], s.channels[c]))
  }

  // The stored records with the last recovery done on them, where it shows.
  ghost function Refreshed(disk: Records, s: Engine): Records {
    Records(disk.runs,
            map j | j in disk.jobs ::
              if j in s.jobs && s.jobs[j] == disk.jobs[j] then disk.jobs[j] else Recovered(disk.jobs[j]),
            map c | c in disk.channels ::
              if c in s.channels && s.channels[c] == disk.channels[c] then disk.channels[c]
              else disk.channels[c].(active := false))
  }

  // Recovery from them is the same, and they lack no more than starts.
  lemma RefreshedRestart(disk: Records, s: Engine, cap: nat, queue: seq<JobId>)
    requires Lags(disk, s)
    ensures Restarted(Refreshed(disk, s), cap, queue) == Restarted(disk, cap, queue)
    ensures RestartedJobs(Refreshed(disk, s).jobs) == RestartedJobs(disk.jobs)
  {
    hide RunLags;
    var t := Refreshed(disk, s);
    forall j | j in disk.jobs ensures Recovered(t.jobs[j]) == Recovered(disk.jobs[j]) && t.jobs[j].run == disk.jobs[j].run {
      RecoveredTwice(disk.jobs[j]);
    }
    SameRecovery(t.jobs, disk.jobs);
    SameChannels(disk, s);
    assert t.jobs.Keys == disk.jobs.Keys && t.runs == disk.runs;
  }

  lemma RecoveredTwice(b: Job)
    ensures Recovered(Recovered(b)) == Recovered(b) && Recovered(b).run == b.run
  {
  }

  lemma SameRecovery(a: Jobs, b: Jobs)
    requires a.Keys == b.Keys && forall j :: j in a ==> Recovered(a[j]) == Recovered(b[j])
    ensures RestartedJobs(a) == RestartedJobs(b)
  {
    forall j | j in a ensures RestartedJobs(a)[j] == RestartedJobs(b)[j] {
      RecoveredIs(a, j);
      RecoveredIs(b, j);
    }
  }

  lemma SameChannels(disk: Records, s: Engine)
    requires Lags(disk, s)
    ensures RestartedChannels(Refreshed(disk, s).channels) == RestartedChannels(disk.channels)
  {
    hide JobLags, RunLags;
    var t := Refreshed(disk, s);
    forall c | c in disk.channels
      ensures RestartedChannels(t.channels)[c] == RestartedChannels(disk.channels)[c]
    {
      assert ChannelLags(disk.channels[c], s.channels[c]);
    }
  }

  lemma RefreshedChannels(disk: Records, s: Engine, c: ChannelId)
    requires Lags(disk, s) && c in s.channels && Refreshed(disk, s).channels[c] != s.channels[c]
    ensures var a := Refreshed(disk, s).channels[c]; !a.active && !a.closed && s.channels[c] == a.(active := true)
  {
    hide RunLags, JobLags, Recovered;
    assert ChannelLags(disk.channels[c], s.channels[c]);
  }

  lemma RefreshedBehind(disk: Records, s: Engine)
    requires Lags(disk, s)
    ensures Behind(Refreshed(disk, s), s)
  {
    hide ChannelLags, Recovered, StartLost;
    var t := Refreshed(disk, s);
    forall j | j in s.jobs ensures t.jobs[j] == s.jobs[j] || StartLost(t.jobs[j], s.jobs[j]) {
      assert JobLags(disk.jobs[j], s.jobs[j]);
    }
    forall r | r in s.runs && t.runs[r] != s.runs[r]
      ensures t.runs[r].status.Pending? && s.runs[r] == t.runs[r].(status := RunStatus.Running)
      ensures exists j :: j in s.jobs && s.jobs[j].run == r && StartLost(t.jobs[j], s.jobs[j])
    {
      assert RunLags(disk, s, r);
      var j :| j in s.jobs && s.jobs[j].run == r && StartLost(Recovered(disk.jobs[j]), s.jobs[j]);
      StartIsNews(disk.jobs[j], s.jobs[j]);
    }
    forall c | c in s.channels && t.channels[c] != s.channels[c]
      ensures !t.channels[c].active && !t.channels[c].closed && s.channels[c] == t.channels[c].(active := true)
    {
      RefreshedChannels(disk, s, c);
    }
  }

  lemma StartIsNews(b: Job, c: Job)
    requires StartLost(Recovered(b), c)
    ensures c != b
  {
  }

  // -- what keeps it

  lemma SlicedJobs(disk: Records, s: Engine, t: Engine, r: RunId)
    requires Lags(disk, s) && OnlyTouches(s, t, r)
    ensures var d := Saved(disk, t, r);
      && d.jobs.Keys == t.jobs.Keys
      && forall j :: j in t.jobs ==>
           if t.jobs[j].run == r then d.jobs[j] == t.jobs[j]
           else j in s.jobs && d.jobs[j] == disk.jobs[j] && t.jobs[j] == s.jobs[j]
  {
    hide RunLags, ChannelLags, StartLost;
  }

  lemma SlicedChannels(disk: Records, s: Engine, t: Engine, r: RunId)
    requires Lags(disk, s) && OnlyTouches(s, t, r)
    ensures var d := Saved(disk, t, r);
      && d.channels.Keys == t.channels.Keys
      && forall c :: c in t.channels ==> ChannelLags(d.channels[c], t.channels[c])
  {
    hide RunLags, JobLags, ChannelLags;
    forall a: Channel ensures ChannelLags(a, a) {
      ChannelLagsNone(a);
    }
  }

  lemma ChannelLagsNone(a: Channel)
    ensures ChannelLags(a, a)
  {
  }

  lemma SlicedRuns(disk: Records, s: Engine, t: Engine, r: RunId)
    requires Lags(disk, s) && OnlyTouches(s, t, r) && s.runs.Keys <= t.runs.Keys
    ensures var d := Saved(disk, t, r);
      && d.runs.Keys == t.runs.Keys && d.jobs.Keys == t.jobs.Keys
      && forall x :: x in t.runs ==> RunLags(d, t, x)
  {
    hide ChannelLags, JobLags, StartLost, Recovered;
    var d := Saved(disk, t, r);
    SlicedJobs(disk, s, t, r);
    forall x | x in t.runs ensures RunLags(d, t, x) {
      if x != r {
        assert RunLags(disk, s, x);
        if disk.runs[x] != s.runs[x] {
          var j :| j in s.jobs && s.jobs[j].run == x && StartLost(Recovered(disk.jobs[j]), s.jobs[j]);
          assert t.jobs[j] == s.jobs[j] && d.jobs[j] == disk.jobs[j];
        }
      }
    }
  }

  lemma SaveLags(disk: Records, s: Engine, t: Engine, r: RunId)
    requires Lags(disk, s) && OnlyTouches(s, t, r) && s.runs.Keys <= t.runs.Keys
    ensures Lags(Saved(disk, t, r), t)
  {
    hide Saved, RunLags, ChannelLags, OnlyTouches, Recovered, StartLost;
    var d := Saved(disk, t, r);
    SlicedJobs(disk, s, t, r);
    SlicedRuns(disk, s, t, r);
    SlicedChannels(disk, s, t, r);
    forall j | j in t.jobs ensures JobLags(d.jobs[j], t.jobs[j]) {
      if t.jobs[j].run != r {
        assert JobLags(disk.jobs[j], s.jobs[j]);
      }
    }
  }

  // One more job is started, and its run with it.
  lemma StartedRunLags(disk: Records, s: Engine, t: Engine, j: JobId, x: RunId)
    requires disk.runs.Keys == s.runs.Keys && disk.jobs.Keys == s.jobs.Keys && x in s.runs && RunLags(disk, s, x)
    requires j in s.jobs && s.jobs[j].status.Ready? && t.runs == StartRun(s.runs, s.jobs[j].run)
    requires t.jobs.Keys == s.jobs.Keys && t.jobs[j].run == s.jobs[j].run
    requires forall k :: k in s.jobs && k != j ==> t.jobs[k] == s.jobs[k]
    requires StartLost(Recovered(disk.jobs[j]), t.jobs[j])
    ensures RunLags(disk, t, x)
  {
    hide Recovered;
    if disk.runs[x] != s.runs[x] {
      var k :| k in s.jobs && s.jobs[k].run == x && StartLost(Recovered(disk.jobs[k]), s.jobs[k]);
      assert k != j && t.jobs[k] == s.jobs[k];
    }
  }

  lemma StartedJobLags(s: Engine, now: int, b: Job)
    requires Inv(s) && Picked(s).Some? && Picked(s).value in s.jobs
    requires s.jobs[Picked(s).value].status.Ready? && JobLags(b, s.jobs[Picked(s).value])
    ensures var j, t := Picked(s).value, Spawn(s, now);
      && t.jobs.Keys == s.jobs.Keys && t.runs == StartRun(s.runs, s.jobs[j].run) && t.channels == s.channels
      && t.jobs[j].run == s.jobs[j].run && StartLost(Recovered(b), t.jobs[j])
  {
    hide Inv;
    SpawnShape(s, now);
  }

  lemma StartedLags(disk: Records, s: Engine, now: int, j: JobId)
    requires Lags(disk, s) && Inv(s) && Picked(s) == Some(j)
    ensures Lags(disk, Spawn(s, now))
  {
    hide Inv, ChannelLags, DepsDone, Spawn, RunLags, StartLost, Recovered, StartRun, Picked;
    var t := Spawn(s, now);
    StartedIsUnblocked(s, now);
    StartedJobLags(s, now, disk.jobs[j]);
    forall x | x in s.runs ensures x in t.runs && RunLags(disk, t, x) {
      StartRunAdvances(s.runs, s.jobs[j].run);
      StartedRunLags(disk, s, t, j, x);
    }
    StartRunAdvances(s.runs, s.jobs[j].run);
  }

  lemma SpawnLags(disk: Records, s: Engine, now: int)
    requires Lags(disk, s) && Inv(s)
    ensures Lags(disk, Spawn(s, now))
  {
    hide Inv, Lags;
    SpawnShape(s, now);
    if Picked(s).Some? {
      StartedLags(disk, s, now, Picked(s).value);
    }
  }

  lemma ActivateLags(disk: Records, s: Engine)
    requires Lags(disk, s)
    ensures Lags(disk, ActivateChannels(s))
  {
    hide JobLags, StartLost, Recovered;
    var t := ActivateChannels(s);
    forall c | c in t.channels ensures ChannelLags(disk.channels[c], t.channels[c]) {
      assert ChannelLags(disk.channels[c], s.channels[c]);
    }
    forall r | r in t.runs ensures RunLags(disk, t, r) {
      assert RunLags(disk, s, r);
    }
  }

  lemma BeatLags(disk: Records, s: Engine, t: Engine)
    requires Lags(disk, s) && t.runs == s.runs && t.jobs == s.jobs && t.channels == s.channels
    ensures Lags(disk, t)
  {
    hide JobLags, StartLost, Recovered, ChannelLags;
    forall r | r in t.runs ensures RunLags(disk, t, r) {
      assert RunLags(disk, s, r);
    }
  }

  lemma RestartLags(disk: Records, cap: nat, queue: seq<JobId>)
    ensures Lags(disk, Restarted(disk, cap, queue))
  {
    var t := Restarted(disk, cap, queue);
    forall j | j in disk.jobs ensures t.jobs[j] == Recovered(disk.jobs[j]) {
      RecoveredIs(disk.jobs, j);
    }
  }

  // ---- The engine of such a daemon ----

  // How often the acts start job j.
  ghost function ActStarts(maxRevisions: nat, sys: Sys, acts: seq<Act>, j: JobId): nat {
    if acts == [] then 0
    else
      var n := |acts| - 1;
      ActStarts(maxRevisions, sys, acts[..n], j)
      + if acts[n].Handle? && StartedBy(DoAll(maxRevisions, sys, acts[..n]).engine, acts[n].event) == Some(j) then 1 else 0
  }

  ghost predicate IsStart(e: Event) {
    e.SpawnJob? || e.Heartbeat? || e.ActivateReady?
  }

  // The daemon saves the run a message is about when it has handled it.
  ghost predicate Prompt(acts: seq<Act>) {
    forall i :: 0 <= i < |acts| && acts[i].Handle? && !IsStart(acts[i].event) ==> acts[i].saved
  }

  ghost predicate PromptInv(sys: Sys) {
    Inv(sys.engine) && SeatsOk(sys.engine) && Lags(sys.disk, sys.engine)
  }

  lemma NoRunNoStep(maxRevisions: nat, s: Engine, e: Event)
    requires SlotsOk(s.jobs, s.active) && Enabled(s, e)
    requires RunOf(s, e).None? && !IsStart(e) && !e.Restart?
    ensures Step(maxRevisions, s, e) == s
  {
    hide OnCompleted, OnFailed, KillsOk, CancelRun, Behind;
  }

  lemma StartLags(maxRevisions: nat, disk: Records, s: Engine, e: Event)
    requires Lags(disk, s) && Inv(s) && IsStart(e)
    ensures Lags(disk, Step(maxRevisions, s, e))
  {
    hide Inv, Lags, Spawn, ActivateChannels;
    match e
    case SpawnJob(now) => SpawnLags(disk, s, now);
    case Heartbeat(j, now) => BeatLags(disk, s, RecordHeartbeat(s, j, now));
    case ActivateReady => ActivateLags(disk, s);
    case _ =>
  }

  lemma HandleLags(maxRevisions: nat, sys: Sys, e: Event, saved: bool)
    requires PromptInv(sys) && May(sys, Handle(e, saved)) && (saved || IsStart(e))
    ensures var t := Do(maxRevisions, sys, Handle(e, saved)); Lags(t.disk, t.engine)
  {
    hide RecordsOk, QueueOk, SlotsOk, CapOk, SeatsOk, Lags, Enabled, Step, Saved, OnlyTouches, RunsEvolve,
      JobsEvolve;
    var s, t := sys.engine, Step(maxRevisions, sys.engine, e);
    if IsStart(e) {
      StartLags(maxRevisions, sys.disk, s, e);
    } else if RunOf(s, e).None? {
      NoRunNoStep(maxRevisions, s, e);
    } else {
      StepEvolves(maxRevisions, s, e);
      assert s.runs.Keys <= t.runs.Keys by { RunsStay(s, t); }
      StepTouchesOne(maxRevisions, s, e);
      SaveLags(sys.disk, s, t, RunOf(s, e).value);
    }
  }

  lemma RunsStay(s: Engine, t: Engine)
    requires Evolves(s, t)
    ensures s.runs.Keys <= t.runs.Keys
  {
  }

  // What the act is to the engine: an event, or none.
  ghost function EventOf(sys: Sys, act: Act): Option<Event> {
    match act
    case Handle(e, _) => Some(e)
    case Save(_) => None
    case Kill(queue) => Some(Restart(Refreshed(sys.disk, sys.engine), queue))
  }

  lemma KillIsRestart(maxRevisions: nat, sys: Sys, queue: seq<JobId>)
    requires PromptInv(sys) && May(sys, Kill(queue))
    ensures var e := Restart(Refreshed(sys.disk, sys.engine), queue);
      Enabled(sys.engine, e) && Do(maxRevisions, sys, Kill(queue)).engine == Step(maxRevisions, sys.engine, e)
  {
    hide Inv, SeatsOk, Lags, Behind, Refreshed;
    RefreshedBehind(sys.disk, sys.engine);
    RefreshedRestart(sys.disk, sys.engine, sys.engine.cap, queue);
  }

  lemma ActIsEvent(maxRevisions: nat, sys: Sys, act: Act)
    requires PromptInv(sys) && May(sys, act) && Prompt([act])
    ensures var e, t := EventOf(sys, act), Do(maxRevisions, sys, act);
      && (e.None? ==> t.engine == sys.engine)
      && (e.Some? ==> Enabled(sys.engine, e.value) && t.engine == Step(maxRevisions, sys.engine, e.value))
      && Lags(t.disk, t.engine)
  {
    hide PromptInv, Enabled, Step, Lags, Restarted, Refreshed, RunOf, Saved;
    assert [act][0] == act;
    match act
    case Handle(e, saved) => HandleLags(maxRevisions, sys, e, saved);
    case Save(r) =>
      LagsPart(sys);
      TouchesNothing(sys.engine, r);
      SaveLags(sys.disk, sys.engine, sys.engine, r);
    case Kill(queue) =>
      KillIsRestart(maxRevisions, sys, queue);
      RestartLags(sys.disk, sys.engine.cap, queue);
  }

  lemma LagsPart(sys: Sys)
    requires PromptInv(sys)
    ensures Lags(sys.disk, sys.engine)
  {
  }

  lemma ActKeepsPrompt(maxRevisions: nat, sys: Sys, act: Act)
    requires PromptInv(sys) && May(sys, act) && Prompt([act])
    ensures PromptInv(Do(maxRevisions, sys, act))
  {
    hide Inv, SeatsOk, Lags, Do, May, Prompt, EventOf, Step, Enabled;
    ActIsEvent(maxRevisions, sys, act);
    var e := EventOf(sys, act);
    if e.Some? {
      StepKeepsInv(maxRevisions, sys.engine, e.value);
      StepKeepsSeats(maxRevisions, sys.engine, e.value);
    }
  }

  lemma OneMoreEvent(maxRevisions: nat, s: Engine, history: seq<Event>, e: Event)
    requires Legal(maxRevisions, s, history) && Enabled(Execute(maxRevisions, s, history), e)
    ensures Legal(maxRevisions, s, history + [e])
    ensures Execute(maxRevisions, s, history + [e]) == Step(maxRevisions, Execute(maxRevisions, s, history), e)
    ensures forall j ::
      StartCount(maxRevisions, s, history + [e], j)
      == StartCount(maxRevisions, s, history, j)
         + (if StartedBy(Execute(maxRevisions, s, history), e) == Some(j) then 1 else 0)
  {
    hide Enabled, Step, StartedBy;
    assert (history + [e])[..|history|] == history;
  }

  // A daemon that saves promptly, is killed at any time and recovers from what
  // it has stored goes through a history of the engine in which restarts lose
  // no more than starts: the events are the messages handled, in their order,
  // and a restart for every kill.
  lemma {:induction false} PromptIsHistory(maxRevisions: nat, cap: nat, acts: seq<Act>) returns (history: seq<Event>)
    requires MayAll(maxRevisions, Fresh(cap), acts) && Prompt(acts)
    ensures Legal(maxRevisions, Init(cap), history)
    ensures Execute(maxRevisions, Init(cap), history) == DoAll(maxRevisions, Fresh(cap), acts).engine
    ensures PromptInv(DoAll(maxRevisions, Fresh(cap), acts))
    ensures |history| <= |acts|
    ensures forall j :: StartCount(maxRevisions, Init(cap), history, j) == ActStarts(maxRevisions, Fresh(cap), acts, j)
  {
    hide PromptInv, Do, May, Enabled, Step, Picked;
    if acts == [] {
      history := [];
      FreshIsPrompt(cap);
    } else {
      var n := |acts| - 1;
      var sys := DoAll(maxRevisions, Fresh(cap), acts[..n]);
      assert Prompt(acts[..n]) && Prompt([acts[n]]);
      history := PromptIsHistory(maxRevisions, cap, acts[..n]);
      ActIsEvent(maxRevisions, sys, acts[n]);
      ActKeepsPrompt(maxRevisions, sys, acts[n]);
      assert acts[n].Kill? ==> EventOf(sys, acts[n]).value.Restart?;
      if EventOf(sys, acts[n]).Some? {
        OneMoreEvent(maxRevisions, Init(cap), history, EventOf(sys, acts[n]).value);
        history := history + [EventOf(sys, acts[n]).value];
      }
    }
  }

  lemma FreshIsPrompt(cap: nat)
    ensures PromptInv(Fresh(cap))
  {
    InitInv(cap);
  }

  // So everything shown of reachable engines holds of its engine.
  lemma PromptIsReachable(maxRevisions: nat, cap: nat, acts: seq<Act>)
    requires MayAll(maxRevisions, Fresh(cap), acts) && Prompt(acts)
    ensures Reachable(maxRevisions, DoAll(maxRevisions, Fresh(cap), acts).engine)
  {
    hide Legal, Execute, DoAll, MayAll, PromptInv;
    var history := PromptIsHistory(maxRevisions, cap, acts);
    assert Reaches(maxRevisions, Init(cap), DoAll(maxRevisions, Fresh(cap), acts).engine);
  }
}
