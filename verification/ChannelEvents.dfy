/** Exactly which events open a channel and which close it. */
module ChannelEvents {
  import opened Types
  import opened Collections
  import opened Planner
  import opened Materialization
  import opened EngineSpec
  import opened EngineInv
  import opened EngineLife
  import opened Failures
  import opened Daemon
  import opened DaemonFrame
  import opened ChannelLife
  import Channels

  // Everybody who has a seat holds a slot.
  ghost predicate AllAtWork(s: Engine, ch: Channel) {
    forall p :: p in ch.participants ==> p in s.active
  }

  // The sender is one of the participants, and in turns it is the one whose turn
  // it is after as many messages.
  ghost predicate InTurn(ch: Channel, sender: JobId) {
    && ch.active && sender in ch.participants
    && (ch.mode.TurnBased? ==> ch.participants[|ch.history| % |ch.participants|] == sender)
  }

  // With one more message the round limit is met.
  ghost predicate LastMessage(ch: Channel) {
    ch.maxRounds.Some? && |ch.history| + 1 >= ch.maxRounds.value * |ch.participants|
  }

  // The event ends an open channel: a participant is done, or says the last
  // thing the limit allows, or is lost.
  ghost predicate Ends(e: Event, c: ChannelId, ch: Channel) {
    match e
    case DoneFrom(d, sender, _) => d == c && ch.active && sender in ch.participants
    case MessageFrom(d, sender, _, _) => d == c && InTurn(ch, sender) && LastMessage(ch)
    case JobFailed(j, _, _) => ch.active && j in ch.participants
    case _ => false
  }

  ghost predicate Begins(s: Engine, e: Event, ch: Channel) {
    e.ActivateReady? && !ch.active && !ch.closed && AllAtWork(s, ch)
  }

  // What an event makes of a channel, as far as being open goes.
  ghost predicate Changes(s: Engine, e: Event, c: ChannelId, a: Channel, b: Channel) {
    && (!a.active ==> (b.active <==> Begins(s, e, a)))
    && (!a.closed ==> (b.closed <==> Ends(e, c, a)))
  }

  // ---- Each kind of event ----

  lemma ActivateChanges(s: Engine, c: ChannelId)
    requires SlotsOk(s.jobs, s.active) && SeatsOk(s) && c in s.channels
    ensures c in ActivateChannels(s).channels
    ensures Changes(s, ActivateReady, c, s.channels[c], ActivateChannels(s).channels[c])
  {
    var ch := s.channels[c];
    assert SeatOk(s.runs, s.jobs, ch);
    if AllAtWork(s, ch) {
      var p := ch.participants[0];
      assert p in ch.participants && s.active[p] == ch.run;
    }
  }

  lemma MessageChanges(s: Engine, c: ChannelId, sender: JobId, content: string, swept: seq<Completion>, d: ChannelId)
    requires ChannelsOk(s.channels) && d in s.channels
    ensures var t := RouteMessage(s, c, sender, content).0;
      d in t.channels && Changes(s, MessageFrom(c, sender, content, swept), d, s.channels[d], t.channels[d])
  {
    hide Channels.Forward;
    if c == d {
      var ch := s.channels[c];
      assert ChannelLife.ChannelOk(ch);
      if Channels.MayTalk(ch, sender) {
        Channels.LimitInMessages(ch, sender, content);
      }
    }
  }

  lemma DoneChanges(s: Engine, c: ChannelId, sender: JobId, swept: seq<Completion>, d: ChannelId)
    requires d in s.channels
    ensures var t := ChannelDone(s, c, sender).0;
      d in t.channels && Changes(s, DoneFrom(c, sender, swept), d, s.channels[d], t.channels[d])
  {
  }

  lemma FailureChanges(s: Engine, j: JobId, note: Note, cs: seq<ChannelId>, d: ChannelId)
    requires Enumerates(cs, ActiveChannelsOf(s, j)) && d in s.channels
    ensures var t := OnFailed(s, j, note, cs);
      d in t.channels && Changes(s, JobFailed(j, note, cs), d, s.channels[d], t.channels[d])
  {
    hide FailAll, MarkFailed, Killed;
    FailPeersShape(s, j, cs);
    FailAllKeepsChannels(s, Killed(s.channels, j, cs), Note.PeerFailed(j));
    OneFailureKeepsChannels(FailPeers(s, j, cs), j, note);
  }

  lemma {:induction false} NewChannelsAreIdle(store: Chans, m: map<string, JobId>, r: RunId, specs: seq<PlannedChannel>,
                                              c: ChannelId)
    requires c in store
    ensures c in AddChannels(store, m, r, specs)
    ensures var b := AddChannels(store, m, r, specs)[c]; b == store[c] || (!b.active && !b.closed)
  {
    if specs != [] {
      NewChannelsAreIdle(store, m, r, specs[..|specs| - 1], c);
    }
  }

  lemma CompletionChanges(maxRevisions: nat, s: Engine, done: Completion, outcome: Outcome, c: ChannelId)
    requires c in s.channels
    ensures var t := OnCompleted(maxRevisions, s, done, outcome);
      c in t.channels && Changes(s, JobCompleted(done, outcome), c, s.channels[c], t.channels[c])
  {
    hide MarkCompleted, WellFormed, Revision;
    var t := Complete(s, done);
    CompleteKeepsChannels(s, done);
    if done.job in s.jobs && outcome.PlanText? && |outcome.ids| == |outcome.plan.jobs| {
      NewChannelsAreIdle(t.channels, IdMap(outcome.plan.jobs, outcome.ids), s.jobs[done.job].run, outcome.plan.channels, c);
    }
  }

  lemma RestartChanges(s: Engine, stored: Records, queue: seq<JobId>, c: ChannelId)
    requires ChannelsOk(s.channels) && Behind(stored, s) && c in s.channels
    ensures var t := Restarted(stored, s.cap, queue);
      c in t.channels && Changes(s, Restart(stored, queue), c, s.channels[c], t.channels[c])
  {
    hide Behind, Channels.CursorOk, Channels.WithinLimit;
    BehindChannels(stored, s);
    assert RestartedChannels(stored.channels).Keys == s.channels.Keys;
    assert ChannelLife.ChannelOk(s.channels[c]);
  }

  lemma OtherChanges(s: Engine, t: Engine, e: Event, c: ChannelId)
    requires t.channels == s.channels && c in s.channels
    requires !e.ActivateReady? && !e.DoneFrom? && !e.MessageFrom? && !e.JobFailed?
    ensures Changes(s, e, c, s.channels[c], t.channels[c])
  {
  }

  lemma StepChanges(maxRevisions: nat, s: Engine, e: Event, c: ChannelId)
    requires Inv(s) && SeatsOk(s) && ChannelsOk(s.channels) && Enabled(s, e) && c in s.channels
    ensures var t := Step(maxRevisions, s, e);
      c in t.channels && Changes(s, e, c, s.channels[c], t.channels[c])
  {
    hide RecordsOk, QueueOk, CapOk, SeatsOk, ChannelsOk, OnCompleted, OnFailed, Sweep, CancelRun, Spawn, KillsOk, Behind,
      RouteMessage, ChannelDone, ActivateChannels, Restarted, Changes, OutcomeOk, CompletionOk, SweepOk;
    var t := Step(maxRevisions, s, e);
    match e
    case SubmitRun(r, root, task) => OtherChanges(s, t, e, c);
    case SpawnJob(now) =>
      SpawnShape(s, now);
      OtherChanges(s, t, e, c);
    case Heartbeat(j, now) => OtherChanges(s, t, e, c);
    case JobCompleted(done, outcome) => CompletionChanges(maxRevisions, s, done, outcome, c);
    case JobFailed(j, note, cs) => FailureChanges(s, j, note, cs, c);
    case MessageFrom(d, sender, content, swept) =>
      MessageChanges(s, d, sender, content, swept, c);
      SweepKeepsChannels(RouteMessage(s, d, sender, content).0, swept);
    case DoneFrom(d, sender, swept) =>
      DoneChanges(s, d, sender, swept, c);
      SweepKeepsChannels(ChannelDone(s, d, sender).0, swept);
    case ActivateReady => ActivateChanges(s, c);
    case Cancel(r, order) =>
      CancelKeepsChannels(s, r, order);
      OtherChanges(s, t, e, c);
    case Restart(stored, queue) => RestartChanges(s, stored, queue, c);
  }

  // A channel becomes active if and only if the event activates channels, it is
  // open and not active, and each of its participants holds a slot: no sooner,
  // and no later.
  lemma OpensIff(maxRevisions: nat, s: Engine, e: Event, c: ChannelId)
    requires Inv(s) && SeatsOk(s) && ChannelsOk(s.channels) && Enabled(s, e)
    requires c in s.channels && !s.channels[c].active
    ensures c in Step(maxRevisions, s, e).channels
    ensures Step(maxRevisions, s, e).channels[c].active <==>
      && e.ActivateReady? && !s.channels[c].closed
      && forall p :: p in s.channels[c].participants ==> p in s.active
  {
    hide Inv, SeatsOk, ChannelsOk, Enabled, Step;
    StepChanges(maxRevisions, s, e, c);
  }

  // An open channel is closed if and only if one of its participants is done
  // with it, says the last thing the limit allows, or fails while it is active.
  lemma ClosesIff(maxRevisions: nat, s: Engine, e: Event, c: ChannelId)
    requires Inv(s) && SeatsOk(s) && ChannelsOk(s.channels) && Enabled(s, e)
    requires c in s.channels && !s.channels[c].closed
    ensures c in Step(maxRevisions, s, e).channels
    ensures Step(maxRevisions, s, e).channels[c].closed <==>
      var ch := s.channels[c];
      && ch.active
      && (|| (e.DoneFrom? && e.channel == c && e.sender in ch.participants)
          || (e.JobFailed? && e.failed in ch.participants)
          || (&& e.MessageFrom? && e.channel == c && e.sender in ch.participants
              && (ch.mode.TurnBased? ==> ch.participants[|ch.history| % |ch.participants|] == e.sender)
              && ch.maxRounds.Some? && |ch.history| + 1 >= ch.maxRounds.value * |ch.participants|))
  {
    hide Inv, SeatsOk, ChannelsOk, Enabled, Step;
    StepChanges(maxRevisions, s, e, c);
  }

  // The event says something in channel c, or that a participant is done with it.
  ghost predicate TalksIn(e: Event, c: ChannelId) {
    (e.MessageFrom? || e.DoneFrom?) && e.channel == c
  }

  lemma ActionCompletes(s: Engine, t: Engine, c: ChannelId, action: Channels.Action, swept: seq<Completion>, p: JobId)
    requires Inv(s) && c in s.channels && c in t.channels && t == s.(channels := s.channels[c := t.channels[c]])
    requires ActionOk(t, c, action, swept) && (action.Close? <==> t.channels[c].closed && !s.channels[c].closed)
    requires t.channels[c].closed && !s.channels[c].closed && t.channels[c].participants == s.channels[c].participants
    requires p in s.channels[c].participants && p in s.jobs && s.jobs[p].status.Running?
    ensures var u := OnAction(t, action, swept);
      && u.channels == t.channels && p in u.jobs
      && (u.jobs[p].status.Completed? <==>
            forall d :: d in u.channels && p in u.channels[d].participants ==> u.channels[d].closed)
      && (!u.jobs[p].status.Completed? ==> u.jobs[p] == s.jobs[p])
  {
    hide Inv, SweepOk, Sweep;
    SameScheduleInv(s, t);
    ClosingCompletes(t, c, swept, p);
    SweepKeepsChannels(t, swept);
  }

  lemma RouteCloses(ch: Channel, sender: JobId, content: string)
    requires ChannelLife.ChannelOk(ch) && !ch.closed
    ensures var (after, action) := Channels.Route(ch, sender, content);
      (action.Close? <==> after.closed) && after.participants == ch.participants
  {
    hide Channels.CursorOk, Channels.WithinLimit;
  }

  // The event that closes a channel by word of a participant completes those
  // participants that were running and have no other channel open, and no other.
  lemma ClosedCompletes(maxRevisions: nat, s: Engine, e: Event, c: ChannelId, p: JobId)
    requires Inv(s) && ChannelsOk(s.channels) && Enabled(s, e) && TalksIn(e, c)
    requires c in s.channels && !s.channels[c].closed
    requires p in s.channels[c].participants && p in s.jobs && s.jobs[p].status.Running?
    ensures var t := Step(maxRevisions, s, e);
      && c in t.channels && p in t.jobs
      && (t.channels[c].closed ==>
            && (t.jobs[p].status.Completed? <==>
                  forall d :: d in t.channels && p in t.channels[d].participants ==> t.channels[d].closed)
            && (!t.jobs[p].status.Completed? ==> t.jobs[p] == s.jobs[p]))
      && (!t.channels[c].closed ==> t.jobs == s.jobs)
  {
    hide Inv, SweepOk, Sweep, OnCompleted, OnFailed, CancelRun, Spawn, Channels.Route;
    assert ChannelLife.ChannelOk(s.channels[c]);
    match e
    case MessageFrom(_, sender, content, swept) =>
      var (t, action) := RouteMessage(s, c, sender, content);
      RouteCloses(s.channels[c], sender, content);
      if action.Close? {
        ActionCompletes(s, t, c, action, swept, p);
      }
    case DoneFrom(_, sender, swept) =>
      var (t, action) := ChannelDone(s, c, sender);
      if action.Close? {
        ActionCompletes(s, t, c, action, swept, p);
      }
    case _ =>
  }

  // The states a daemon gets into are such.
  lemma ReachableChannels(maxRevisions: nat, s: Engine)
    requires Reachable(maxRevisions, s)
    ensures Inv(s) && SeatsOk(s) && ChannelsOk(s.channels)
  {
    hide Inv, Legal, Execute, SeatsOk, ChannelsOk;
    var cap: nat :| Reaches(maxRevisions, Init(cap), s);
    var history :| Legal(maxRevisions, Init(cap), history) && s == Execute(maxRevisions, Init(cap), history);
    InitInv(cap);
    NoChannels(cap);
    ExecuteKeepsInv(maxRevisions, Init(cap), history);
    SeatsAlwaysOk(maxRevisions, Init(cap), history);
    ChannelsAlwaysOk(maxRevisions, Init(cap), history);
  }

  lemma NoChannels(cap: nat)
    ensures SeatsOk(Init(cap)) && ChannelsOk(Init(cap).channels)
  {
  }
}
