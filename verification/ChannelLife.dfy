/** The life of a channel over whole runs of the daemon: opened at most once in
    a session, closed for good, its cursor a function of its history throughout;
    and what closing it does to its participants. */
module ChannelLife {
  import opened Types
  import opened Collections
  import opened Planner
  import opened Materialization
  import opened EngineSpec
  import opened EngineInv
  import opened EngineLife
  import opened Failures
  import opened Daemon
  import opened DaemonFrame
  import opened Progress
  import Channels

  type Chans = map<ChannelId, Channel>

  ghost predicate ChannelOk(ch: Channel) {
    Channels.CursorOk(ch) && Channels.WithinLimit(ch) && !(ch.active && ch.closed)
  }

  ghost predicate ChannelsOk(channels: Chans) {
    forall c :: c in channels ==> ChannelOk(channels[c])
  }

  // What a step may do to a channel: a closed one stays exactly as it is, an
  // active one stays active or closes, and a history only grows at its end.
  ghost predicate ChannelEvolves(a: Channel, b: Channel) {
    && b.participants == a.participants && b.mode == a.mode && b.run == a.run
    && b.maxRounds == a.maxRounds && b.onPeerFailure == a.onPeerFailure && b.initial == a.initial
    && a.history <= b.history
    && (a.closed ==> b == a)
  }

  ghost predicate ChannelsEvolve(a: Chans, b: Chans) {
    && a.Keys <= b.Keys
    && forall c :: c in a ==> ChannelEvolves(a[c], b[c])
  }

  // Within a session nothing but closing ends an activation.
  ghost predicate StaysOpen(a: Chans, b: Chans) {
    forall c :: c in a && c in b && a[c].active ==> b[c].active || b[c].closed
  }

  // An accepted plan names no channel its run already has.
  ghost predicate NewNames(s: Engine, e: Event) {
    e.JobCompleted? && e.outcome.PlanText? && WellFormed(e.outcome.plan) && e.done.job in s.jobs
    && s.jobs[e.done.job].role.Planner? ==>
      forall i :: 0 <= i < |e.outcome.plan.channels| ==>
        ChannelId(s.jobs[e.done.job].run, e.outcome.plan.channels[i].name) !in s.channels
  }

  ghost predicate ChannelsKept(a: Chans, b: Chans) {
    ChannelsOk(b) && ChannelsEvolve(a, b) && StaysOpen(a, b)
  }

  // ---- Steps ----

  lemma SameChannelsKept(a: Chans)
    requires ChannelsOk(a)
    ensures ChannelsKept(a, a)
  {
  }

  lemma OneChannelKept(a: Chans, b: Chans, c: ChannelId)
    requires ChannelsOk(a) && c in a && c in b && b == a[c := b[c]]
    requires ChannelOk(b[c]) && ChannelEvolves(a[c], b[c]) && (a[c].active ==> b[c].active || b[c].closed)
    ensures ChannelsKept(a, b)
  {
    hide Channels.CursorOk, Channels.WithinLimit;
  }

  lemma RouteKept(s: Engine, c: ChannelId, sender: JobId, content: string)
    requires ChannelsOk(s.channels)
    ensures ChannelsKept(s.channels, RouteMessage(s, c, sender, content).0.channels)
  {
    if c in s.channels {
      var ch := s.channels[c];
      assert ChannelOk(ch);
      Channels.RouteSpec(ch, sender, content);
      Channels.RouteWithinLimit(ch, sender, content);
      hide Channels.CursorOk, Channels.WithinLimit;
      OneChannelKept(s.channels, RouteMessage(s, c, sender, content).0.channels, c);
    } else {
      SameChannelsKept(s.channels);
    }
  }

  lemma DoneKept(s: Engine, c: ChannelId, sender: JobId)
    requires ChannelsOk(s.channels)
    ensures ChannelsKept(s.channels, ChannelDone(s, c, sender).0.channels)
  {
    if c in s.channels {
      assert ChannelOk(s.channels[c]);
      OneChannelKept(s.channels, ChannelDone(s, c, sender).0.channels, c);
    } else {
      SameChannelsKept(s.channels);
    }
  }

  lemma ActivatedKept(ch: Channel)
    requires ChannelOk(ch) && !ch.active && !ch.closed
    ensures ChannelOk(ch.(active := true)) && ChannelEvolves(ch, ch.(active := true))
  {
  }

  lemma ActivateKept(s: Engine)
    requires ChannelsOk(s.channels)
    ensures ChannelsKept(s.channels, ActivateChannels(s).channels)
  {
    hide ChannelOk, CanActivate;
    forall c | c in s.channels
      ensures ChannelOk(ActivateChannels(s).channels[c])
      ensures ChannelEvolves(s.channels[c], ActivateChannels(s).channels[c])
    {
      if CanActivate(s, s.channels[c]) {
        ActivateOpen(s, s.channels[c]);
        ActivatedKept(s.channels[c]);
      }
    }
  }

  lemma ActivateOpen(s: Engine, ch: Channel)
    requires CanActivate(s, ch)
    ensures !ch.active && !ch.closed
  {
  }

  lemma ClosedKept(channels: Chans, cs: seq<ChannelId>)
    requires ChannelsOk(channels) && forall c :: c in cs && c in channels ==> channels[c].active
    ensures ChannelsKept(channels, ClosedAt(channels, cs))
  {
    forall c | c in channels
      ensures ChannelOk(ClosedAt(channels, cs)[c]) && ChannelEvolves(channels[c], ClosedAt(channels, cs)[c])
    {
      assert ChannelOk(channels[c]);
    }
  }

  lemma {:induction false} FailAllKeepsChannels(s: Engine, order: seq<JobId>, note: Note)
    ensures FailAll(s, order, note).channels == s.channels
  {
    if order != [] {
      FailAllKeepsChannels(s, order[..|order| - 1], note);
    }
  }

  lemma OnFailedKept(s: Engine, j: JobId, note: Note, cs: seq<ChannelId>)
    requires ChannelsOk(s.channels) && Enumerates(cs, ActiveChannelsOf(s, j))
    ensures ChannelsKept(s.channels, OnFailed(s, j, note, cs).channels)
  {
    hide FailAll, ChannelsKept, ChannelsOk;
    FailPeersShape(s, j, cs);
    ClosedKept(s.channels, cs);
  }

  lemma {:induction false} SweepKeepsChannels(s: Engine, swept: seq<Completion>)
    ensures Sweep(s, swept).channels == s.channels
  {
    if swept != [] {
      SweepKeepsChannels(s, swept[..|swept| - 1]);
    }
  }

  lemma {:induction false} NewChannelsOk(store: Chans, m: map<string, JobId>, r: RunId, specs: seq<PlannedChannel>)
    requires ChannelsOk(store)
    ensures ChannelsOk(AddChannels(store, m, r, specs))
  {
    if specs != [] {
      NewChannelsOk(store, m, r, specs[..|specs| - 1]);
      assert ChannelOk(RealChannel(m, r, specs[|specs| - 1]));
    }
  }

  lemma MaterializeKept(t: Engine, r: RunId, parent: JobId, plan: Plan, ids: seq<JobId>)
    requires ChannelsOk(t.channels) && |ids| == |plan.jobs|
    requires forall i :: 0 <= i < |plan.channels| ==> ChannelId(r, plan.channels[i].name) !in t.channels
    ensures ChannelsKept(t.channels, MaterializePlan(t, r, parent, plan, ids).channels)
  {
    var m := IdMap(plan.jobs, ids);
    NewChannelsOk(t.channels, m, r, plan.channels);
    AddChannelsKeys(t.channels, m, r, plan.channels);
    forall c | c in t.channels ensures !Named(r, plan.channels, c) {
      assert forall i :: 0 <= i < |plan.channels| ==> ChannelId(r, plan.channels[i].name) != c;
    }
  }

  lemma OnCompletedKept(maxRevisions: nat, s: Engine, c: Completion, outcome: Outcome)
    requires ChannelsOk(s.channels) && OutcomeOk(s, outcome) && NewNames(s, JobCompleted(c, outcome))
    ensures ChannelsKept(s.channels, OnCompleted(maxRevisions, s, c, outcome).channels)
  {
    hide ChannelsKept, ChannelsOk, MaterializePlan, WellFormed, Promote, CheckCompletion;
    var t := Complete(s, c);
    SameChannelsKept(s.channels);
    if c.job in s.jobs && s.jobs[c.job].role.Planner? && outcome.PlanText? && WellFormed(outcome.plan) {
      MaterializeKept(t, s.jobs[c.job].run, c.job, outcome.plan, outcome.ids);
    }
  }

  lemma CancelKeepsChannels(s: Engine, r: RunId, order: seq<JobId>)
    ensures CancelRun(s, r, order).channels == s.channels
  {
    FailAllKeepsChannels(s, order, CancelledByUser);
  }

  lemma StepKeepsChannels(maxRevisions: nat, s: Engine, e: Event)
    requires ChannelsOk(s.channels) && Enabled(s, e) && NewNames(s, e) && !e.Restart?
    ensures ChannelsKept(s.channels, Step(maxRevisions, s, e).channels)
  {
    hide ChannelsKept, ChannelsOk, NewNames, OnCompleted, OnFailed, CancelRun, Sweep;
    SameChannelsKept(s.channels);
    match e
    case JobCompleted(c, outcome) => OnCompletedKept(maxRevisions, s, c, outcome);
    case JobFailed(j, note, cs) => OnFailedKept(s, j, note, cs);
    case MessageFrom(c, sender, content, swept) =>
      RouteKept(s, c, sender, content);
      SweepKeepsChannels(RouteMessage(s, c, sender, content).0, swept);
    case DoneFrom(c, sender, swept) =>
      DoneKept(s, c, sender);
      SweepKeepsChannels(ChannelDone(s, c, sender).0, swept);
    case ActivateReady => ActivateKept(s);
    case Cancel(r, order) => CancelKeepsChannels(s, r, order);
    case _ =>
  }

  // The stored channels lack no more than activations, which a restart undoes.
  lemma BehindChannels(stored: Records, s: Engine)
    requires Behind(stored, s) && ChannelsOk(s.channels)
    ensures RestartedChannels(stored.channels) == RestartedChannels(s.channels)
  {
    hide ChannelOk;
    forall c | c in s.channels
      ensures RestartedChannels(stored.channels)[c] == RestartedChannels(s.channels)[c]
    {
      NotBoth(s.channels, c);
    }
  }

  lemma RestartKeepsChannels(s: Engine, stored: Records, queue: seq<JobId>)
    requires ChannelsOk(s.channels) && Behind(stored, s)
    ensures var t := Restarted(stored, s.cap, queue);
      ChannelsOk(t.channels) && ChannelsEvolve(s.channels, t.channels)
  {
    hide Behind;
    BehindChannels(stored, s);
    var t := Restarted(stored, s.cap, queue);
    forall c | c in s.channels
      ensures ChannelOk(t.channels[c]) && ChannelEvolves(s.channels[c], t.channels[c])
    {
      assert ChannelOk(s.channels[c]);
    }
  }

  // ---- Whole runs ----

  ghost predicate NamesStayNew(maxRevisions: nat, s: Engine, history: seq<Event>) {
    history != [] ==>
      var n := |history| - 1;
      NamesStayNew(maxRevisions, s, history[..n]) && NewNames(Execute(maxRevisions, s, history[..n]), history[n])
  }

  lemma EvolveTransitive(a: Chans, b: Chans, d: Chans)
    requires ChannelsEvolve(a, b) && ChannelsEvolve(b, d)
    ensures ChannelsEvolve(a, d)
  {
    forall c | c in a ensures ChannelEvolves(a[c], d[c]) {
      assert ChannelEvolves(a[c], b[c]) && ChannelEvolves(b[c], d[c]);
    }
  }

  // Over any history, restarts included: no channel is active and closed at
  // once, every cursor is what the history makes it, conversations only grow,
  // and a closed channel never changes again.
  lemma {:induction false} ChannelLifecycle(maxRevisions: nat, s: Engine, history: seq<Event>)
    requires ChannelsOk(s.channels)
    requires Legal(maxRevisions, s, history) && NamesStayNew(maxRevisions, s, history)
    ensures var t := Execute(maxRevisions, s, history);
      ChannelsOk(t.channels) && ChannelsEvolve(s.channels, t.channels)
  {
    hide ChannelsOk, ChannelsEvolve, Step, Enabled, NewNames;
    if history == [] {
      SameChannelsEvolve(s.channels);
    } else {
      var n := |history| - 1;
      var t := Execute(maxRevisions, s, history[..n]);
      ChannelLifecycle(maxRevisions, s, history[..n]);
      StepChannels(maxRevisions, t, history[n]);
      EvolveTransitive(s.channels, t.channels, Step(maxRevisions, t, history[n]).channels);
    }
  }

  lemma SameChannelsEvolve(a: Chans)
    ensures ChannelsEvolve(a, a)
  {
  }

  lemma StepChannels(maxRevisions: nat, s: Engine, e: Event)
    requires ChannelsOk(s.channels) && Enabled(s, e) && NewNames(s, e)
    ensures ChannelsOk(Step(maxRevisions, s, e).channels)
    ensures ChannelsEvolve(s.channels, Step(maxRevisions, s, e).channels)
  {
    hide ChannelsOk, ChannelsEvolve, StaysOpen, NewNames, OnCompleted, OnFailed, CancelRun, Sweep, Restarted, Behind;
    if e.Restart? {
      RestartKeepsChannels(s, e.stored, e.queue);
    } else {
      StepKeepsChannels(maxRevisions, s, e);
    }
  }

  lemma OnCompletedChannelsOk(maxRevisions: nat, s: Engine, c: Completion, outcome: Outcome)
    requires ChannelsOk(s.channels)
    ensures ChannelsOk(OnCompleted(maxRevisions, s, c, outcome).channels)
  {
    hide ChannelsOk, MarkCompleted, WellFormed, Revision;
    var t := Complete(s, c);
    CompleteKeepsChannels(s, c);
    if c.job in s.jobs && s.jobs[c.job].role.Planner? && outcome.PlanText? && |outcome.ids| == |outcome.plan.jobs| {
      NewChannelsOk(t.channels, IdMap(outcome.plan.jobs, outcome.ids), s.jobs[c.job].run, outcome.plan.channels);
    }
  }

  lemma CompleteKeepsChannels(s: Engine, c: Completion)
    ensures Complete(s, c).channels == s.channels
  {
  }

  // Even where a later plan of a run takes the name of a channel it has.
  lemma StepChannelsOk(maxRevisions: nat, s: Engine, e: Event)
    requires ChannelsOk(s.channels) && Enabled(s, e)
    ensures ChannelsOk(Step(maxRevisions, s, e).channels)
  {
    hide ChannelsOk, ChannelsEvolve, Enabled, OnCompleted, OnFailed, CancelRun, Sweep, Restarted;
    if e.JobCompleted? {
      OnCompletedChannelsOk(maxRevisions, s, e.done, e.outcome);
    } else {
      StepChannels(maxRevisions, s, e);
    }
  }

  lemma {:induction false} ChannelsAlwaysOk(maxRevisions: nat, s: Engine, history: seq<Event>)
    requires ChannelsOk(s.channels) && Legal(maxRevisions, s, history)
    ensures ChannelsOk(Execute(maxRevisions, s, history).channels)
  {
    hide ChannelsOk, Step, Enabled;
    if history != [] {
      var n := |history| - 1;
      ChannelsAlwaysOk(maxRevisions, s, history[..n]);
      StepChannelsOk(maxRevisions, Execute(maxRevisions, s, history[..n]), history[n]);
    }
  }

  // The round limit over any history of the daemon, restarts included: a
  // channel of n seats limited to m rounds never holds more than m * n messages
  // (one, if that is none), and is closed once it holds them.
  lemma RoundLimitAlways(maxRevisions: nat, s: Engine, c: ChannelId)
    requires Reachable(maxRevisions, s) && c in s.channels && s.channels[c].maxRounds.Some?
    ensures var ch := s.channels[c];
      var k, limit := |ch.history|, ch.maxRounds.value * |ch.participants|;
      && (k <= limit || (limit == 0 && k <= 1))
      && (k > 0 && k >= limit ==> ch.closed && !ch.active)
  {
    hide Legal, Execute;
    var cap: nat :| Reaches(maxRevisions, Init(cap), s);
    var history :| Legal(maxRevisions, Init(cap), history) && s == Execute(maxRevisions, Init(cap), history);
    ChannelsAlwaysOk(maxRevisions, Init(cap), history);
    assert ChannelOk(s.channels[c]);
  }

  // ---- Seats ----

  // A channel goes under its run's name. Somebody has a seat at it, and whoever
  // does is a job of that run, and the run has been decided by its planner.
  ghost predicate SeatOk(runs: Runs, jobs: Jobs, ch: Channel) {
    && Live(runs, ch.run) && !Undecided(runs, ch.run) && ch.participants != []
    && forall p :: p in ch.participants ==> p in jobs && jobs[p].run == ch.run
  }

  ghost predicate SeatsOk(s: Engine) {
    forall c :: c in s.channels ==> s.channels[c].run == c.run && SeatOk(s.runs, s.jobs, s.channels[c])
  }

  ghost predicate SameSeats(a: Chans, b: Chans) {
    && b.Keys == a.Keys
    && forall c :: c in a ==> b[c].run == a[c].run && b[c].participants == a[c].participants
  }

  lemma SeatsStay(s: Engine, t: Engine)
    requires SeatsOk(s) && Evolves(s, t) && SameSeats(s.channels, t.channels)
    ensures SeatsOk(t)
  {
    forall c | c in t.channels ensures SeatOk(t.runs, t.jobs, t.channels[c]) {
      assert SeatOk(s.runs, s.jobs, s.channels[c]);
    }
  }

  lemma {:induction false} NewSeats(runs: Runs, jobs: Jobs, store: Chans, m: map<string, JobId>, r: RunId,
                                    specs: seq<PlannedChannel>)
    requires forall c :: c in store ==> store[c].run == c.run && SeatOk(runs, jobs, store[c])
    requires Live(runs, r) && !Undecided(runs, r)
    requires forall l :: l in m ==> m[l] in jobs && jobs[m[l]].run == r
    requires forall i :: 0 <= i < |specs| ==> specs[i].participants != [] && specs[i].participants[0] in m
    ensures var after := AddChannels(store, m, r, specs);
      forall c :: c in after ==> after[c].run == c.run && SeatOk(runs, jobs, after[c])
  {
    if specs != [] {
      var n := |specs| - 1;
      NewSeats(runs, jobs, store, m, r, specs[..n]);
      TranslateWithin(m, specs[n].participants);
      assert Translate(m, specs[n].participants) != [];
    }
  }

  lemma {:induction false} TranslateWithin(m: map<string, JobId>, locals: seq<string>)
    ensures forall x :: x in Translate(m, locals) ==> x in m.Values
  {
    if locals != [] {
      TranslateWithin(m, locals[1..]);
    }
  }

  lemma NamesStandForJobs(plan: Plan, ids: seq<JobId>, r: RunId, parent: JobId, jobs: Jobs)
    requires |ids| == |plan.jobs|
    requires forall i :: 0 <= i < |ids| ==>
      ids[i] in jobs && JobCopies(plan, ids, r, parent, plan.jobs[i], jobs[ids[i]])
    ensures forall l :: l in IdMap(plan.jobs, ids) ==>
      IdMap(plan.jobs, ids)[l] in jobs && jobs[IdMap(plan.jobs, ids)[l]].run == r
  {
    hide Image;
    var m := IdMap(plan.jobs, ids);
    IdMapKeys(plan.jobs, ids);
    forall l | l in m ensures m[l] in jobs && jobs[m[l]].run == r {
      var i :| 0 <= i < |ids| && ids[i] == m[l];
      assert JobCopies(plan, ids, r, parent, plan.jobs[i], jobs[ids[i]]);
    }
  }

  lemma MaterializeSeats(s: Engine, r: RunId, parent: JobId, plan: Plan, ids: seq<JobId>)
    requires SeatsOk(s) && Live(s.runs, r) && !Undecided(s.runs, r)
    requires WellFormed(plan) && FreshIds(plan, ids, s.jobs)
    ensures SeatsOk(MaterializePlan(s, r, parent, plan, ids))
  {
    hide WellFormed, JobCopies, SeatOk, Filter;
    var t, m := MaterializePlan(s, r, parent, plan, ids), IdMap(plan.jobs, ids);
    MaterializeShape(s, r, parent, plan, ids);
    NamesStandForJobs(plan, ids, r, parent, t.jobs);
    forall c | c in s.channels ensures SeatOk(t.runs, t.jobs, s.channels[c]) {
      SeatOfMoreJobs(s.runs, s.jobs, t.jobs, s.channels[c]);
    }
    SomebodySits(plan, ids);
    NewSeats(t.runs, t.jobs, s.channels, m, r, plan.channels);
  }

  lemma SomebodySits(plan: Plan, ids: seq<JobId>)
    requires WellFormed(plan) && |ids| == |plan.jobs|
    ensures forall i :: 0 <= i < |plan.channels| ==>
      plan.channels[i].participants != [] && plan.channels[i].participants[0] in IdMap(plan.jobs, ids)
  {
    IdMapKeys(plan.jobs, ids);
    forall i | 0 <= i < |plan.channels|
      ensures plan.channels[i].participants != [] && plan.channels[i].participants[0] in IdMap(plan.jobs, ids)
    {
      assert Planner.ChannelOk(Locals(plan.jobs), plan.channels[i]);
      assert plan.channels[i].participants[0] in plan.channels[i].participants;
    }
  }

  lemma SeatOfMoreJobs(runs: Runs, jobs: Jobs, t: Jobs, ch: Channel)
    requires SeatOk(runs, jobs, ch) && forall j :: j in jobs ==> j in t && t[j].run == jobs[j].run
    ensures SeatOk(runs, t, ch)
  {
  }

  lemma OnCompletedSeats(maxRevisions: nat, s: Engine, c: Completion, outcome: Outcome)
    requires Inv(s) && SeatsOk(s) && CompletionOk(s, c) && OutcomeOk(s, outcome)
    requires Evolves(s, OnCompleted(maxRevisions, s, c, outcome))
    ensures SeatsOk(OnCompleted(maxRevisions, s, c, outcome))
  {
    hide RecordsOk, QueueOk, SlotsOk, CapOk, MarkCompleted, WellFormed, MaterializePlan, Revision, SeatsOk, Evolves;
    var t := Complete(s, c);
    CompleteEvolves(s, c);
    CompleteShape(s, c);
    CompleteDecides(s, c.job, c.outputs, c.promoted);
    CompleteKeepsChannels(s, c);
    SeatsStay(s, t);
    if s.jobs[c.job].role.Planner? && outcome.PlanText? && WellFormed(outcome.plan) {
      MaterializeSeats(t, s.jobs[c.job].run, c.job, outcome.plan, outcome.ids);
    } else {
      SeatsStay(s, OnCompleted(maxRevisions, s, c, outcome));
    }
  }

  lemma FailureSameSeats(s: Engine, j: JobId, note: Note, cs: seq<ChannelId>)
    ensures SameSeats(s.channels, OnFailed(s, j, note, cs).channels)
  {
    hide FailAll, MarkFailed, Killed;
    FailPeersShape(s, j, cs);
    FailAllKeepsChannels(s, Killed(s.channels, j, cs), Note.PeerFailed(j));
    OneFailureKeepsChannels(FailPeers(s, j, cs), j, note);
  }

  lemma RestartSameSeats(s: Engine, stored: Records, queue: seq<JobId>)
    requires Behind(stored, s)
    ensures SameSeats(s.channels, Restarted(stored, s.cap, queue).channels)
  {
  }

  lemma RouteKeepsSeats(ch: Channel, sender: JobId, content: string)
    ensures var t := Channels.Route(ch, sender, content).0; t.run == ch.run && t.participants == ch.participants
  {
  }

  lemma TalkSameSeats(s: Engine, c: ChannelId, sender: JobId, content: string)
    ensures SameSeats(s.channels, RouteMessage(s, c, sender, content).0.channels)
    ensures SameSeats(s.channels, ChannelDone(s, c, sender).0.channels)
  {
    hide Channels.Route;
    if c in s.channels {
      RouteKeepsSeats(s.channels[c], sender, content);
    }
  }

  lemma OtherSameSeats(s: Engine, now: int)
    ensures SameSeats(s.channels, Spawn(s, now).channels) && SameSeats(s.channels, ActivateChannels(s).channels)
  {
    hide CanActivate;
    SpawnShape(s, now);
  }

  lemma StepSameSeats(maxRevisions: nat, s: Engine, e: Event)
    requires Enabled(s, e) && !e.JobCompleted?
    ensures SameSeats(s.channels, Step(maxRevisions, s, e).channels)
  {
    hide OnFailed, Sweep, CancelRun, MarkFailed, KillsOk, ActionOk, Spawn, ActivateChannels, Behind,
      RouteMessage, ChannelDone, Restarted;
    match e
    case JobFailed(j, note, cs) => FailureSameSeats(s, j, note, cs);
    case MessageFrom(c, sender, content, swept) =>
      TalkSameSeats(s, c, sender, content);
      SweepKeepsChannels(RouteMessage(s, c, sender, content).0, swept);
    case DoneFrom(c, sender, swept) =>
      TalkSameSeats(s, c, sender, "");
      SweepKeepsChannels(ChannelDone(s, c, sender).0, swept);
    case Cancel(r, order) => CancelKeepsChannels(s, r, order);
    case SpawnJob(now) => OtherSameSeats(s, now);
    case ActivateReady => OtherSameSeats(s, 0);
    case Restart(stored, queue) => RestartSameSeats(s, stored, queue);
    case _ =>
  }

  lemma OneFailureKeepsChannels(s: Engine, j: JobId, note: Note)
    ensures MarkFailed(s, j, note).channels == s.channels
  {
  }

  lemma StepKeepsSeats(maxRevisions: nat, s: Engine, e: Event)
    requires Inv(s) && SeatsOk(s) && Enabled(s, e)
    ensures SeatsOk(Step(maxRevisions, s, e))
  {
    hide Inv, SeatsOk, Evolves, SameSeats, OnCompleted;
    StepEvolves(maxRevisions, s, e);
    match e
    case JobCompleted(c, outcome) => OnCompletedSeats(maxRevisions, s, c, outcome);
    case _ =>
      StepSameSeats(maxRevisions, s, e);
      SeatsStay(s, Step(maxRevisions, s, e));
  }

  lemma {:induction false} SeatsAlwaysOk(maxRevisions: nat, s: Engine, history: seq<Event>)
    requires Inv(s) && SeatsOk(s) && Legal(maxRevisions, s, history)
    ensures SeatsOk(Execute(maxRevisions, s, history))
  {
    hide Inv, SeatsOk, Step, Enabled;
    if history != [] {
      var n := |history| - 1;
      SeatsAlwaysOk(maxRevisions, s, history[..n]);
      ExecuteKeepsInv(maxRevisions, s, history[..n]);
      StepKeepsSeats(maxRevisions, Execute(maxRevisions, s, history[..n]), history[n]);
    }
  }

  // Hence a job of a cancelled run takes part in no channel: a failure it is
  // still reported to have had kills nobody.
  lemma PlannersOfCancelledRunsHaveNoSeat(maxRevisions: nat, s: Engine, j: JobId)
    requires Reachable(maxRevisions, s) && j in s.jobs && CancelledRun(s.runs, s.jobs[j].run)
    ensures forall c :: c in s.channels ==> j !in s.channels[c].participants
    ensures ActiveChannelsOf(s, j) == {}
  {
    hide Inv, Legal, Execute;
    var cap: nat :| Reaches(maxRevisions, Init(cap), s);
    var history :| Legal(maxRevisions, Init(cap), history) && s == Execute(maxRevisions, Init(cap), history);
    InitInv(cap);
    SeatsAlwaysOk(maxRevisions, Init(cap), history);
    forall c | c in s.channels ensures j !in s.channels[c].participants {
      assert SeatOk(s.runs, s.jobs, s.channels[c]);
    }
  }

  // How often channel c is activated in the course of a history.
  ghost function Activations(maxRevisions: nat, s: Engine, history: seq<Event>, c: ChannelId): nat {
    if history == [] then 0
    else
      var n := |history| - 1;
      var t := Execute(maxRevisions, s, history[..n]);
      var u := Step(maxRevisions, t, history[n]);
      Activations(maxRevisions, s, history[..n], c)
      + if c in t.channels && c in u.channels && !t.channels[c].active && u.channels[c].active then 1 else 0
  }

  ghost predicate Opened(channels: Chans, c: ChannelId) {
    c in channels && (channels[c].active || channels[c].closed)
  }

  // Within one session a channel is activated at most once.
  lemma {:induction false} ActivatedOnce(maxRevisions: nat, s: Engine, history: seq<Event>, c: ChannelId)
    requires ChannelsOk(s.channels) && Legal(maxRevisions, s, history) && NamesStayNew(maxRevisions, s, history)
    requires forall e :: e in history ==> !e.Restart?
    ensures var k := Activations(maxRevisions, s, history, c);
      && k <= (if Opened(s.channels, c) then 0 else 1)
      && (k > 0 || Opened(s.channels, c) ==> Opened(Execute(maxRevisions, s, history).channels, c))
  {
    hide ChannelsOk, Step, Enabled, NewNames;
    if history != [] {
      var n := |history| - 1;
      var t := Execute(maxRevisions, s, history[..n]);
      ActivatedOnce(maxRevisions, s, history[..n], c);
      ChannelLifecycle(maxRevisions, s, history[..n]);
      StepKeepsChannels(maxRevisions, t, history[n]);
      if c in t.channels {
        assert ChannelEvolves(t.channels[c], Step(maxRevisions, t, history[n]).channels[c]);
        NotBoth(t.channels, c);
      }
    }
  }

  lemma NotBoth(channels: Chans, c: ChannelId)
    requires ChannelsOk(channels) && c in channels
    ensures !(channels[c].active && channels[c].closed)
  {
    assert ChannelOk(channels[c]);
  }

  // ---- Closing a channel completes its participants ----

  ghost predicate Unblocked(b: Job, c: Job) {
    c == b || (b.status.Pending? && c == b.(status := JobStatus.Ready))
  }

  // The participants whose other channels are closed too are completed, if they
  // were running; every other job keeps its record, but may be unblocked.
  ghost predicate SweptTo(s: Engine, t: Engine, c: ChannelId, participants: seq<JobId>) {
    && t.jobs.Keys == s.jobs.Keys
    && forall j :: j in s.jobs ==>
         if j in participants && Finished(s, c, j) then t.jobs[j].status.Completed? else Unblocked(s.jobs[j], t.jobs[j])
  }

  lemma CompleteOneMore(s: Engine, u: Engine, t: Engine, c: ChannelId, rest: seq<JobId>, last: Completion)
    requires SweptTo(s, u, c, rest) && CompletedAt(u.jobs, t.jobs, last) && u.channels == s.channels
    requires Finished(u, c, last.job)
    ensures SweptTo(s, t, c, rest + [last.job])
  {
    forall j | j in s.jobs
      ensures if j in rest + [last.job] && Finished(s, c, j) then t.jobs[j].status.Completed?
              else Unblocked(s.jobs[j], t.jobs[j])
    {
      assert j in rest + [last.job] <==> j in rest || j == last.job;
    }
  }

  lemma SkipOneMore(s: Engine, u: Engine, c: ChannelId, rest: seq<JobId>, p: JobId)
    requires SweptTo(s, u, c, rest) && u.channels == s.channels && !Finished(u, c, p)
    ensures SweptTo(s, u, c, rest + [p])
  {
    forall j | j in s.jobs
      ensures if j in rest + [p] && Finished(s, c, j) then u.jobs[j].status.Completed?
              else Unblocked(s.jobs[j], u.jobs[j])
    {
      assert j in rest + [p] <==> j in rest || j == p;
    }
  }

  lemma {:induction false} SweepSpec(s: Engine, c: ChannelId, participants: seq<JobId>, swept: seq<Completion>)
    requires Inv(s) && SweepOk(s, c, participants, swept)
    ensures SweptTo(s, Sweep(s, swept), c, participants)
    decreases |participants|
  {
    hide RecordsOk, QueueOk, CapOk, MarkCompleted, SweptTo, Finished;
    if participants == [] {
      NothingSwept(s, c);
    } else {
      var rest, p := participants[..|participants| - 1], participants[|participants| - 1];
      assert participants == rest + [p];
      if SweepOk(s, c, rest, swept) && !Finished(Sweep(s, swept), c, p) {
        SweepSpec(s, c, rest, swept);
        SweepKeepsChannels(s, swept);
        SkipOneMore(s, Sweep(s, swept), c, rest, p);
      } else {
        var u, last := Sweep(s, swept[..|swept| - 1]), swept[|swept| - 1];
        SweepSpec(s, c, rest, swept[..|swept| - 1]);
        SweepKeeps(s, c, rest, swept[..|swept| - 1]);
        SweepKeepsChannels(s, swept[..|swept| - 1]);
        RunningHoldsSlot(u, c, p);
        CompleteSpec(u, last);
        CompleteOneMore(s, u, Complete(u, last), c, rest, last);
      }
    }
  }

  lemma RunningHoldsSlot(u: Engine, c: ChannelId, p: JobId)
    requires SlotsOk(u.jobs, u.active) && Finished(u, c, p)
    ensures p in u.active
  {
  }

  lemma NothingSwept(s: Engine, c: ChannelId)
    ensures SweptTo(s, s, c, [])
  {
  }

  // When the daemon handles the closing of a channel, a participant that was
  // running is completed if and only if every channel it belongs to is closed.
  lemma ClosingCompletes(s: Engine, c: ChannelId, swept: seq<Completion>, p: JobId)
    requires Inv(s) && c in s.channels && s.channels[c].closed && SweepOk(s, c, s.channels[c].participants, swept)
    requires p in s.channels[c].participants && p in s.jobs && s.jobs[p].status.Running?
    ensures var t := Sweep(s, swept);
      && p in t.jobs
      && (t.jobs[p].status.Completed? <==>
            forall d :: d in s.channels && p in s.channels[d].participants ==> s.channels[d].closed)
      && (!t.jobs[p].status.Completed? ==> t.jobs[p] == s.jobs[p])
  {
    hide Inv, SweepOk, Sweep;
    SweepSpec(s, c, s.channels[c].participants, swept);
  }
}
