/** What losing a job does to its peers: the channels it takes part in are closed,
    and those that say so have everyone else killed. Exactly which failures keep
    the invariant, and how the program comes by those that do not. */
module Failures {
  import opened Types
  import opened Collections
  import opened EngineSpec
  import opened EngineExact
  import opened EngineInv
  import opened EngineLife
  import Channels

  // ---- Losing a job ----

  ghost function ClosedAt(channels: map<ChannelId, Channel>, cs: seq<ChannelId>): map<ChannelId, Channel> {
    map c | c in channels :: if c in cs then Channels.Closed(channels[c]) else channels[c]
  }

  // Close each channel in turn and fail the peers of those that say so.
  ghost function FailPeers(s: Engine, j: JobId, cs: seq<ChannelId>): Engine {
    if cs == [] then s
    else
      var n := |cs| - 1;
      var (t, action) := EngineSpec.PeerFailed(FailPeers(s, j, cs[..n]), cs[n], j);
      match action
      case KillParticipants(jobs) => FailAll(t, jobs, Note.PeerFailed(j))
      case _ => t
  }

  // The peers losing job j costs through one channel.
  ghost function KilledAt(channels: map<ChannelId, Channel>, j: JobId, c: ChannelId): seq<JobId> {
    if c in channels && channels[c].onPeerFailure.KillAll? then Channels.Peers(channels[c], j) else []
  }

  // The jobs this fails, in order.
  ghost function Killed(channels: map<ChannelId, Channel>, j: JobId, cs: seq<ChannelId>): seq<JobId> {
    if cs == [] then []
    else
      var n := |cs| - 1;
      Killed(channels, j, cs[..n]) + KilledAt(channels, j, cs[n])
  }

  ghost function OnFailed(s: Engine, j: JobId, note: Note, cs: seq<ChannelId>): Engine {
    MarkFailed(FailPeers(s, j, cs), j, note)
  }

  // ---- Peers ----

  lemma FailNextKeeps(t: Engine, active: map<JobId, RunId>, failed: set<JobId>, j: JobId, note: Note)
    requires Inv(t) && t.active == active - failed && j in active && j !in failed
    ensures Inv(MarkFailed(t, j, note))
    ensures MarkFailed(t, j, note).active == active - (failed + {j})
  {
    FailKeeps(t, j, note);
  }

  lemma {:induction false} FailAllKeeps(s: Engine, order: seq<JobId>, note: Note)
    requires Inv(s) && Distinct(order) && Elements(order) <= s.active.Keys
    ensures Inv(FailAll(s, order, note))
    ensures FailAll(s, order, note).active == s.active - Elements(order)
  {
    hide Inv, MarkFailed;
    if order == [] {
      assert s.active - Elements(order) == s.active;
    } else {
      var n := |order| - 1;
      Last(order, n);
      FailAllKeeps(s, order[..n], note);
      FailNextKeeps(FailAll(s, order[..n], note), s.active, Elements(order[..n]), order[n], note);
    }
  }

  lemma {:induction false} FailAllConcat(s: Engine, a: seq<JobId>, b: seq<JobId>, note: Note)
    ensures FailAll(FailAll(s, a, note), b, note) == FailAll(s, a + b, note)
  {
    if b == [] {
      assert a + b == a;
    } else {
      var n := |b| - 1;
      FailAllConcat(s, a, b[..n], note);
      assert (a + b)[..|a + b| - 1] == a + b[..n];
    }
  }

  lemma {:induction false} FailAllChannels(s: Engine, cs: map<ChannelId, Channel>, order: seq<JobId>, note: Note)
    ensures FailAll(s.(channels := cs), order, note) == FailAll(s, order, note).(channels := cs)
  {
    if order != [] {
      FailAllChannels(s, cs, order[..|order| - 1], note);
    }
  }

  lemma ClosedAtNext(channels: map<ChannelId, Channel>, cs: seq<ChannelId>, c: ChannelId)
    ensures ClosedAt(channels, cs + [c]) ==
      if c in channels then ClosedAt(channels, cs)[c := Channels.Closed(ClosedAt(channels, cs)[c])]
      else ClosedAt(channels, cs)
  {
  }

  lemma FailPeersNext(s: Engine, t: Engine, j: JobId, cs: seq<ChannelId>, c: ChannelId)
    requires t.channels == ClosedAt(s.channels, cs)
    ensures var (u, action) := EngineSpec.PeerFailed(t, c, j);
      && u == t.(channels := ClosedAt(s.channels, cs + [c]))
      && (if action.KillParticipants? then action.jobs else []) == KilledAt(s.channels, j, c)
  {
    ClosedAtNext(s.channels, cs, c);
  }

  lemma FailAllAfterClosing(s: Engine, kills: seq<JobId>, before: map<ChannelId, Channel>,
                            after: map<ChannelId, Channel>, more: seq<JobId>, note: Note)
    ensures FailAll(FailAll(s, kills, note).(channels := before).(channels := after), more, note)
         == FailAll(s, kills + more, note).(channels := after)
  {
    FailAllChannels(FailAll(s, kills, note), after, more, note);
    FailAllConcat(s, kills, more, note);
  }

  lemma ClosedAtNone(channels: map<ChannelId, Channel>)
    ensures ClosedAt(channels, []) == channels
  {
  }

  // Whatever the order of the channels: they are closed, and the peers on the
  // kill list are failed one after the other.
  lemma {:induction false} FailPeersShape(s: Engine, j: JobId, cs: seq<ChannelId>)
    ensures FailPeers(s, j, cs) ==
      FailAll(s, Killed(s.channels, j, cs), Note.PeerFailed(j)).(channels := ClosedAt(s.channels, cs))
  {
    hide ClosedAt, KilledAt;
    var note := Note.PeerFailed(j);
    if cs == [] {
      ClosedAtNone(s.channels);
    } else {
      var n := |cs| - 1;
      FailPeersShape(s, j, cs[..n]);
      assert cs == cs[..n] + [cs[n]];
      FailPeersNext(s, FailPeers(s, j, cs[..n]), j, cs[..n], cs[n]);
      FailAllAfterClosing(s, Killed(s.channels, j, cs[..n]), ClosedAt(s.channels, cs[..n]),
                          ClosedAt(s.channels, cs), KilledAt(s.channels, j, cs[n]), note);
    }
  }

  // The kill list: everyone who shares a channel with j, among those given,
  // whose policy is to kill all.
  lemma {:induction false} KilledIff(channels: map<ChannelId, Channel>, j: JobId, cs: seq<ChannelId>, p: JobId)
    ensures p in Killed(channels, j, cs) <==>
      p != j && exists c :: c in cs && c in channels && channels[c].onPeerFailure.KillAll? && p in channels[c].participants
  {
    if cs != [] {
      var n := |cs| - 1;
      assert cs == cs[..n] + [cs[n]];
      KilledIff(channels, j, cs[..n], p);
    }
  }

  lemma {:induction false} KilledArePeers(channels: map<ChannelId, Channel>, j: JobId, cs: seq<ChannelId>)
    ensures j !in Killed(channels, j, cs)
  {
    if cs != [] {
      KilledArePeers(channels, j, cs[..|cs| - 1]);
    }
  }

  // A job without attempts left that has been failed, for good.
  ghost predicate FailedAs(t: Engine, p: JobId, b: Job, note: Note) {
    && p in t.jobs && p !in t.active && p !in t.beats
    && t.jobs[p] == b.(status := JobStatus.Failed, error := Some(note))
  }

  lemma FailedNext(t: Engine, j: JobId, p: JobId, b: Job, note: Note)
    requires b.attempt >= b.maxAttempts
    requires FailedAs(t, p, b, note) || (j == p && p in t.jobs && t.jobs[p] == b)
    ensures FailedAs(MarkFailed(t, j, note), p, b, note)
  {
  }

  lemma {:induction false} FailedBefore(s: Engine, order: seq<JobId>, note: Note, p: JobId)
    requires p in order && p in s.jobs && s.jobs[p].attempt >= s.jobs[p].maxAttempts
    ensures FailedAs(FailAll(s, order, note), p, s.jobs[p], note)
  {
    hide MarkFailed, FailedAs;
    var n := |order| - 1;
    assert order == order[..n] + [order[n]];
    if p in order[..n] {
      FailedBefore(s, order[..n], note, p);
    } else {
      FailAllOthers(s, order[..n], note, p);
    }
    FailedNext(FailAll(s, order[..n], note), order[n], p, s.jobs[p], note);
  }

  lemma {:induction false} FailAllOthers(s: Engine, order: seq<JobId>, note: Note, p: JobId)
    requires p !in order && p in s.jobs
    ensures p in FailAll(s, order, note).jobs && FailAll(s, order, note).jobs[p] == s.jobs[p]
  {
    if order != [] {
      var n := |order| - 1;
      assert order == order[..n] + [order[n]];
      FailAllOthers(s, order[..n], note, p);
    }
  }

  // A job that is failed again, with no attempts left, is as it was.
  lemma FailAgain(t: Engine, p: JobId, b: Job, note: Note)
    requires FailedAs(t, p, b, note) && b.attempt >= b.maxAttempts
    ensures MarkFailed(t, p, note) == t
  {
    assert t.active - {p} == t.active && t.beats - {p} == t.beats;
    assert t.jobs[p := t.jobs[p]] == t.jobs;
  }

  lemma FilterFront(order: seq<JobId>, keep: JobId -> bool, n: nat)
    requires |order| == n + 1 && Distinct(Filter(order, keep))
    ensures Distinct(Filter(order[..n], keep)) && (order[n] in order[..n] ==> !keep(order[n]))
  {
    assert order == order[..n] + [order[n]];
    FilterConcat(order[..n], [order[n]], keep);
    assert [order[n]][1..] == [];
    DistinctParts(Filter(order[..n], keep), Filter([order[n]], keep));
  }

  // A job that has Failed, in a run that is not cancelled.
  ghost predicate Lost(s: Engine, k: JobId) {
    k in s.jobs && s.jobs[k].status.Failed? && Live(s.runs, s.jobs[k].run)
  }

  // The kill list of a failure the daemon's loop may see: peers that hold slots,
  // none killed twice that would be queued, and peers that have Failed.
  ghost predicate KillsOk(s: Engine, kills: seq<JobId>) {
    && (forall k :: k in kills ==> k in s.active || Lost(s, k))
    && Distinct(Filter(kills, Retryable(s.jobs)))
  }

  // ---- Exactly which failures keep the invariant ----

  ghost predicate KillsHarmless(s: Engine, kills: seq<JobId>) {
    (forall k :: k in kills ==> FailHarmless(s, k)) && Distinct(Filter(kills, Retryable(s.jobs)))
  }

  // Damage that no failing of jobs ever repairs: a job queued twice, or one
  // that has got past Pending without what it depends on.
  ghost predicate Damaged(s: Engine) {
    || !Distinct(s.queue)
    || exists k, d {:trigger d in s.jobs[k].deps} ::
         k in s.jobs && d in s.jobs[k].deps && !s.jobs[k].status.Pending? && !(d in s.jobs && s.jobs[d].status.Completed?)
  }

  lemma DamagedBreaks(s: Engine)
    requires Damaged(s)
    ensures !Inv(s)
  {
    if Distinct(s.queue) {
      var k, d :| k in s.jobs && d in s.jobs[k].deps && !s.jobs[k].status.Pending?
                  && !(d in s.jobs && s.jobs[d].status.Completed?);
      assert !DepsDone(s.jobs, s.jobs[k].deps);
    }
  }

  lemma DamageStays(s: Engine, j: JobId, note: Note)
    requires Damaged(s)
    ensures Damaged(MarkFailed(s, j, note))
  {
    var t := MarkFailed(s, j, note);
    if !Distinct(s.queue) {
      RepetitionStays(s, j, note);
    } else {
      var k, d :| k in s.jobs && d in s.jobs[k].deps && !s.jobs[k].status.Pending?
                  && !(d in s.jobs && s.jobs[d].status.Completed?);
      assert d in t.jobs[k].deps && !t.jobs[k].status.Pending?;
    }
  }

  lemma RequeueDamages(s: Engine, j: JobId, note: Note)
    requires j in s.jobs && j in s.queue && s.jobs[j].attempt < s.jobs[j].maxAttempts
    ensures Damaged(MarkFailed(s, j, note))
  {
    var t := MarkFailed(s, j, note);
    var i :| 0 <= i < |s.queue| && s.queue[i] == j;
    assert t.queue == s.queue + [j];
    assert t.queue[i] == t.queue[|s.queue|];
  }

  lemma UnblockingDamages(s: Engine, j: JobId, note: Note)
    requires DepsExact(s.jobs) && j in s.jobs && s.jobs[j].status.Pending?
    ensures Damaged(MarkFailed(s, j, note))
  {
    var t := MarkFailed(s, j, note);
    var d := Blocker(s.jobs, j);
    assert d in t.jobs[j].deps;
  }

  lemma ReopeningDamages(s: Engine, j: JobId, note: Note)
    requires RefsOk(s.runs, s.jobs) && j in s.jobs && !NobodyStarted(s.jobs, j)
    ensures Damaged(MarkFailed(s, j, note))
  {
    var t := MarkFailed(s, j, note);
    var k :| k in s.jobs && j in s.jobs[k].deps && !s.jobs[k].status.Pending?;
    assert j in t.jobs[k].deps;
  }

  lemma HarmfulDamages(s: Engine, j: JobId, note: Note)
    requires Inv(s) && !FailHarmless(s, j)
    ensures Damaged(MarkFailed(s, j, note))
  {
    hide RefsOk, DepsExact, RootsOk, CapOk, MarkFailed, Damaged, NobodyStarted;
    assert AttemptOk(s.jobs[j]);
    if s.jobs[j].status.Ready? {
      RequeueDamages(s, j, note);
    } else if s.jobs[j].status.Pending? {
      UnblockingDamages(s, j, note);
    } else {
      ReopeningDamages(s, j, note);
    }
  }

  // Failing harmless jobs changes no job's being Pending, and a job not among
  // them in nothing.
  ghost predicate PendingKept(jobs: Jobs, t: Jobs) {
    && t.Keys == jobs.Keys
    && forall x :: x in jobs ==> t[x].deps == jobs[x].deps && (t[x].status.Pending? <==> jobs[x].status.Pending?)
  }

  lemma {:induction false} HarmlessKeepsPending(s: Engine, order: seq<JobId>, note: Note)
    requires forall k :: k in order ==> k in s.jobs ==> !s.jobs[k].status.Pending?
    ensures PendingKept(s.jobs, FailAll(s, order, note).jobs)
  {
    if order != [] {
      var n := |order| - 1;
      assert order == order[..n] + [order[n]];
      HarmlessKeepsPending(s, order[..n], note);
    }
  }

  lemma {:induction false} FailAllActive(s: Engine, order: seq<JobId>, note: Note)
    ensures FailAll(s, order, note).active == s.active - Elements(order)
  {
    if order == [] {
      assert s.active - Elements(order) == s.active;
    } else {
      var n := |order| - 1;
      FailAllActive(s, order[..n], note);
      assert order == order[..n] + [order[n]];
      assert Elements(order) == Elements(order[..n]) + {order[n]};
    }
  }

  lemma SameHarm(s: Engine, order: seq<JobId>, note: Note, k: JobId)
    requires k !in order && (forall x :: x in order ==> FailHarmless(s, x)) && SlotsOk(s.jobs, s.active)
    ensures FailHarmless(FailAll(s, order, note), k) <==> FailHarmless(s, k)
  {
    hide FailAll;
    var t := FailAll(s, order, note);
    FailAllActive(s, order, note);
    FailAllQueue(s, order, note);
    HarmlessKeepsPending(s, order, note);
    if k in s.jobs {
      FailAllOthers(s, order, note, k);
    }
  }

  // Killing the jobs of a list one after the other keeps the invariant exactly
  // if each could be failed on its own and none with attempts left comes twice;
  // otherwise it does damage for good.
  lemma {:induction false} KillAllIff(s: Engine, order: seq<JobId>, note: Note)
    requires Inv(s)
    ensures if KillsHarmless(s, order) then Inv(FailAll(s, order, note)) else Damaged(FailAll(s, order, note))
  {
    hide Inv, MarkFailed, FailHarmless, Damaged;
    if order != [] {
      var n := |order| - 1;
      var t, k := FailAll(s, order[..n], note), order[n];
      KillAllIff(s, order[..n], note);
      assert order == order[..n] + [k];
      FilterLast(order[..n], k, Retryable(s.jobs));
      if !KillsHarmless(s, order[..n]) {
        DamageStays(t, k, note);
      } else {
        KillNext(s, order[..n], note, k);
        FailKeepsInvIff(t, k, note);
        if !FailHarmless(t, k) { HarmfulDamages(t, k, note); }
      }
    }
  }

  lemma FilterLast(order: seq<JobId>, k: JobId, keep: JobId -> bool)
    ensures Distinct(Filter(order + [k], keep)) <==>
      Distinct(Filter(order, keep)) && (keep(k) ==> k !in order)
  {
    FilterConcat(order, [k], keep);
    assert [k][1..] == [];
    var front, last := Filter(order, keep), Filter([k], keep);
    if Distinct(front + last) {
      DistinctParts(front, last);
    } else if Distinct(front) && (keep(k) ==> k !in order) {
      DistinctConcat(front, last);
    }
  }

  // The next kill is harmless exactly if it was to begin with and does not
  // repeat one that was queued.
  lemma KillNext(s: Engine, order: seq<JobId>, note: Note, k: JobId)
    requires Inv(s) && KillsHarmless(s, order) && Inv(FailAll(s, order, note))
    ensures FailHarmless(FailAll(s, order, note), k) <==>
      FailHarmless(s, k) && (Retryable(s.jobs)(k) ==> k !in order)
  {
    hide FailAll, RecordsOk, CapOk;
    var t := FailAll(s, order, note);
    FailAllQueue(s, order, note);
    if k !in order {
      SameHarm(s, order, note, k);
    } else if Retryable(s.jobs)(k) {
      assert k in Filter(order, Retryable(s.jobs));
      assert k in t.queue;
      assert t.jobs[k].status.Ready? && k !in t.active;
    } else if k in s.jobs {
      FailedBefore(s, order, note, k);
    }
  }

  lemma KillKeepsSlot(s: Engine, j: JobId, kills: seq<JobId>, note: Note)
    requires j in s.active && j !in kills
    ensures j in FailAll(s, kills, note).active
  {
    FailAllActive(s, kills, note);
  }

  lemma ChannelsDamageNothing(s: Engine, channels: map<ChannelId, Channel>)
    ensures Damaged(s.(channels := channels)) <==> Damaged(s)
  {
    var t := s.(channels := channels);
    if Damaged(s) && Distinct(s.queue) {
      var k, d :| k in s.jobs && d in s.jobs[k].deps && !s.jobs[k].status.Pending?
                  && !(d in s.jobs && s.jobs[d].status.Completed?);
      assert d in t.jobs[k].deps;
    }
    if Damaged(t) && Distinct(t.queue) {
      var k, d :| k in t.jobs && d in t.jobs[k].deps && !t.jobs[k].status.Pending?
                  && !(d in t.jobs && t.jobs[d].status.Completed?);
      assert d in s.jobs[k].deps;
    }
  }

  // Whoever the peers are and whatever state they are in: handling a failure
  // keeps the invariant if and only if each of them could be failed on its own
  // and none with attempts left is killed twice.
  lemma OnFailedKeepsIff(s: Engine, j: JobId, note: Note, cs: seq<ChannelId>)
    requires Inv(s) && j in s.active
    ensures Inv(OnFailed(s, j, note, cs)) <==> KillsHarmless(s, Killed(s.channels, j, cs))
  {
    hide Inv, KillsHarmless, FailAll, FailPeers, MarkFailed, Damaged, ClosedAt;
    var kills := Killed(s.channels, j, cs);
    var t, u := FailAll(s, kills, Note.PeerFailed(j)), FailPeers(s, j, cs);
    FailPeersShape(s, j, cs);
    KilledArePeers(s.channels, j, cs);
    KillAllIff(s, kills, Note.PeerFailed(j));
    if KillsHarmless(s, kills) {
      SameScheduleInv(t, u);
      KillKeepsSlot(s, j, kills, Note.PeerFailed(j));
      FailKeeps(u, j, note);
    } else {
      ChannelsDamageNothing(t, u.channels);
      DamageStays(u, j, note);
      DamagedBreaks(OnFailed(s, j, note, cs));
    }
  }

  lemma KillsOkHarmless(s: Engine, kills: seq<JobId>)
    requires KillsOk(s, kills)
    ensures KillsHarmless(s, kills)
  {
  }

  // ---- What a failure the loop may see comes to ----

  // The given jobs have their errors noted anew.
  ghost function Renoted(jobs: Jobs, again: set<JobId>, note: Note): Jobs {
    map j | j in jobs :: if j in again then jobs[j].(error := Some(note)) else jobs[j]
  }

  lemma RenotedLeaves(jobs: Jobs, again: set<JobId>, note: Note, r: RunId)
    ensures var t := Renoted(jobs, again, note);
      RunJobs(t, r) == RunJobs(jobs, r) && Leaves(t, r) == Leaves(jobs, r)
  {
    var t := Renoted(jobs, again, note);
    assert RunJobs(t, r) == RunJobs(jobs, r);
    assert forall k :: k in jobs ==> t[k].deps == jobs[k].deps;
  }

  lemma RenotedVerdict(runs: Runs, jobs: Jobs, again: set<JobId>, note: Note, r: RunId)
    ensures CheckCompletion(runs, Renoted(jobs, again, note), r) == CheckCompletion(runs, jobs, r)
  {
    hide Leaves;
    var t := Renoted(jobs, again, note);
    RenotedLeaves(jobs, again, note, r);
    assert Leaves(jobs, r) <= jobs.Keys by { LeavesKnown(jobs, r); }
    OutputsAgree(jobs, t, Leaves(jobs, r));
    assert SomeFailed(t, r) <==> SomeFailed(jobs, r);
  }

  lemma LeavesKnown(jobs: Jobs, r: RunId)
    ensures Leaves(jobs, r) <= jobs.Keys
  {
  }

  lemma RenotedTouches(jobs: Jobs, again: set<JobId>, note: Note)
    requires AttemptsOk(jobs)
    ensures AllTouched(jobs, Renoted(jobs, again, note))
  {
    var u := Renoted(jobs, again, note);
    forall j | j in jobs ensures AttemptOk(u[j]) {
      assert AttemptOk(jobs[j]);
    }
  }

  lemma RenotedSchedule(t: Engine, again: set<JobId>, note: Note)
    requires QueueOk(t.runs, t.jobs, t.queue) && SlotsOk(t.jobs, t.active)
    ensures var u := Renoted(t.jobs, again, note); QueueOk(t.runs, u, t.queue) && SlotsOk(u, t.active)
  {
  }

  lemma RenotedKeeps(t: Engine, again: set<JobId>, note: Note)
    requires Inv(t)
    ensures Inv(t.(jobs := Renoted(t.jobs, again, note)))
  {
    hide RefsOk, AttemptsOk, DepsExact, RootsOk, QueueOk, SlotsOk, AllTouched, Renoted;
    RenotedTouches(t.jobs, again, note);
    assert Advances(t.runs, t.runs);
    TouchRecords(t.runs, t.runs, t.jobs, Renoted(t.jobs, again, note));
    RenotedSchedule(t, again, note);
  }

  // Failing a job that is not among those noted anew.
  lemma FailRenoted(t: Engine, again: set<JobId>, note: Note, k: JobId)
    requires k !in again
    ensures var u := MarkFailed(t, k, note);
      MarkFailed(t.(jobs := Renoted(t.jobs, again, note)), k, note) == u.(jobs := Renoted(u.jobs, again, note))
  {
    hide CheckCompletion;
    var u := MarkFailed(t, k, note);
    var v := MarkFailed(t.(jobs := Renoted(t.jobs, again, note)), k, note);
    assert v.jobs == Renoted(u.jobs, again, note);
    if k in t.active {
      RenotedVerdict(t.runs, u.jobs, again, note, t.active[k]);
    }
  }

  // Failing a job that has Failed notes its error anew.
  lemma FailOfLost(t: Engine, again: set<JobId>, note: Note, k: JobId)
    requires k in t.jobs && k !in t.active && k !in t.beats
    requires t.jobs[k].status.Failed? && t.jobs[k].attempt >= t.jobs[k].maxAttempts
    ensures MarkFailed(t.(jobs := Renoted(t.jobs, again, note)), k, note)
         == t.(jobs := Renoted(t.jobs, again + {k}, note))
  {
    assert t.active - {k} == t.active && t.beats - {k} == t.beats;
    var v := MarkFailed(t.(jobs := Renoted(t.jobs, again, note)), k, note);
    assert v.jobs == Renoted(t.jobs, again + {k}, note);
  }

  lemma {:induction false} FailAllBeats(s: Engine, order: seq<JobId>, note: Note)
    ensures FailAll(s, order, note).beats.Keys <= s.beats.Keys
  {
    if order != [] {
      FailAllBeats(s, order[..|order| - 1], note);
    }
  }

  // Such a kill list does what its slot holders, once each, do, but for the
  // errors of those that have Failed.
  lemma {:induction false} KillOnce(s: Engine, order: seq<JobId>, note: Note)
      returns (kills: seq<JobId>, again: set<JobId>)
    requires SlotsOk(s.jobs, s.active) && AttemptsOk(s.jobs) && CapOk(s) && KillsOk(s, order)
    ensures Distinct(kills) && Elements(kills) <= s.active.Keys && again !! s.active.Keys
    ensures forall k :: k in order <==> k in kills || k in again
    ensures forall k :: k in again ==> Lost(s, k)
    ensures var t := FailAll(s, kills, note);
      FailAll(s, order, note) == t.(jobs := Renoted(t.jobs, again, note))
  {
    hide MarkFailed, Renoted, FailedAs, AttemptsOk, SlotsOk, CapOk;
    if order == [] {
      kills, again := [], {};
      NoneRenoted(s.jobs, note);
    } else {
      var n := |order| - 1;
      assert order == order[..n] + [order[n]];
      FilterFront(order, Retryable(s.jobs), n);
      kills, again := KillOnce(s, order[..n], note);
      var t, k := FailAll(s, kills, note), order[n];
      if k in order[..n] {
        KilledIsKnown(s, k);
        FailedBefore(s, order[..n], note, k);
        FailAgain(FailAll(s, order[..n], note), k, s.jobs[k], note);
      } else if k in s.active {
        FailRenoted(t, again, note, k);
        DistinctConcat(kills, [k]);
        assert (kills + [k])[..|kills|] == kills;
        kills := kills + [k];
      } else {
        KilledIsKnown(s, k);
        FailAllOthers(s, kills, note, k);
        FailAllActive(s, kills, note);
        FailAllBeats(s, kills, note);
        FailOfLost(t, again, note, k);
        again := again + {k};
      }
    }
  }

  lemma NoneRenoted(jobs: Jobs, note: Note)
    ensures Renoted(jobs, {}, note) == jobs
  {
  }

  lemma KilledIsKnown(s: Engine, k: JobId)
    requires SlotsOk(s.jobs, s.active) && AttemptsOk(s.jobs) && CapOk(s)
    requires k in s.active || Lost(s, k)
    ensures k in s.jobs && (k !in s.active ==> k !in s.beats && s.jobs[k].attempt >= s.jobs[k].maxAttempts)
  {
    assert k in s.jobs;
    assert AttemptOk(s.jobs[k]);
  }

  // What handling a failure comes to: the channels are closed, distinct peers
  // that hold slots are failed, those that have Failed are noted, and then the
  // job itself is failed.
  lemma FailureShape(s: Engine, j: JobId, cs: seq<ChannelId>) returns (kills: seq<JobId>, again: set<JobId>)
    requires Inv(s) && j in s.active && KillsOk(s, Killed(s.channels, j, cs))
    ensures Distinct(kills) && Elements(kills) <= s.active.Keys && j !in kills && j !in again
    ensures forall k :: k in kills || k in again <==> k in Killed(s.channels, j, cs)
    ensures forall k :: k in again ==> Lost(s, k)
    ensures var t := FailAll(s, kills, Note.PeerFailed(j));
      FailPeers(s, j, cs) ==
        t.(jobs := Renoted(t.jobs, again, Note.PeerFailed(j)), channels := ClosedAt(s.channels, cs))
    ensures j in FailPeers(s, j, cs).active
  {
    hide FailAll, FailPeers, Killed, ClosedAt, Renoted, KillsOk, RefsOk, AttemptsOk, DepsExact, RootsOk, QueueOk, SlotsOk,
      CapOk;
    FailPeersShape(s, j, cs);
    KilledArePeers(s.channels, j, cs);
    kills, again := KillOnce(s, Killed(s.channels, j, cs), Note.PeerFailed(j));
    KillKeepsSlot(s, j, kills, Note.PeerFailed(j));
  }

  lemma OnFailedKeeps(s: Engine, j: JobId, note: Note, cs: seq<ChannelId>)
    requires Inv(s) && j in s.active && KillsOk(s, Killed(s.channels, j, cs))
    ensures Inv(OnFailed(s, j, note, cs))
  {
    hide Inv, KillsOk, KillsHarmless, OnFailed;
    KillsOkHarmless(s, Killed(s.channels, j, cs));
    OnFailedKeepsIff(s, j, note, cs);
  }

  // What a failure does to the job itself: it is out of its slot, with the error
  // noted, and queued again exactly if it has attempts left; otherwise it Failed.
  lemma FailedJob(s: Engine, j: JobId, note: Note, cs: seq<ChannelId>)
    requires Inv(s) && j in s.active && KillsOk(s, Killed(s.channels, j, cs))
    ensures var b, t := s.jobs[j], OnFailed(s, j, note, cs);
      && j in t.jobs && j !in t.active
      && (j in t.queue <==> b.attempt < b.maxAttempts)
      && t.jobs[j] == b.(error := Some(note),
                         status := if b.attempt < b.maxAttempts then JobStatus.Ready else JobStatus.Failed)
  {
    hide RecordsOk, CapOk, FailAll, FailPeers, KillsOk, Renoted, ClosedAt, CheckCompletion, Killed;
    var kills := Killed(s.channels, j, cs);
    KilledArePeers(s.channels, j, cs);
    FailPeersShape(s, j, cs);
    FailAllOthers(s, kills, Note.PeerFailed(j), j);
    FailAllQueue(s, kills, Note.PeerFailed(j));
    var u := FailPeers(s, j, cs);
    assert j !in s.queue && j !in Filter(kills, Retryable(s.jobs));
    assert j !in u.queue;
    var t := OnFailed(s, j, note, cs);
    if t.jobs[j].status.Ready? { assert t.queue[|u.queue|] == j; }
  }

  // ---- The ways the program gets there ----

  // What the kills do to the queue, whoever is killed: it is free of repetitions
  // afterwards if and only if the peers that have attempts left are killed once
  // each and were not queued already.
  lemma KillsQueueOnceIff(s: Engine, order: seq<JobId>, note: Note)
    requires Distinct(s.queue)
    ensures var retried := Filter(order, Retryable(s.jobs));
      Distinct(FailAll(s, order, note).queue) <==> Distinct(retried) && forall j :: j in retried ==> j !in s.queue
  {
    var retried := Filter(order, Retryable(s.jobs));
    FailAllQueue(s, order, note);
    if Distinct(s.queue + retried) {
      DistinctParts(s.queue, retried);
    } else if Distinct(retried) && forall j :: j in retried ==> j !in s.queue {
      DistinctConcat(s.queue, retried);
    }
  }

  ghost function Retryable(jobs: Jobs): JobId -> bool {
    j => j in jobs && jobs[j].attempt < jobs[j].maxAttempts
  }

  ghost predicate SameAttempts(jobs: Jobs, t: Jobs) {
    && t.Keys == jobs.Keys
    && forall j :: j in jobs ==> t[j].attempt == jobs[j].attempt && t[j].maxAttempts == jobs[j].maxAttempts
  }

  lemma FailQueueNext(t: Engine, jobs: Jobs, j: JobId, note: Note)
    requires SameAttempts(jobs, t.jobs)
    ensures MarkFailed(t, j, note).queue == t.queue + Filter([j], Retryable(jobs))
    ensures SameAttempts(jobs, MarkFailed(t, j, note).jobs)
  {
    assert [j][1..] == [];
    assert t.queue + [] == t.queue;
  }

  lemma {:induction false} FailAllQueue(s: Engine, order: seq<JobId>, note: Note)
    ensures FailAll(s, order, note).queue == s.queue + Filter(order, Retryable(s.jobs))
    ensures SameAttempts(s.jobs, FailAll(s, order, note).jobs)
  {
    hide MarkFailed;
    if order == [] {
      assert s.queue + [] == s.queue;
    } else {
      var n := |order| - 1;
      FailAllQueue(s, order[..n], note);
      assert order == order[..n] + [order[n]];
      FilterConcat(order[..n], [order[n]], Retryable(s.jobs));
      FailQueueNext(FailAll(s, order[..n], note), s.jobs, order[n], note);
    }
  }

  lemma PairOfPeers(channels: map<ChannelId, Channel>, j: JobId, p: JobId, c: ChannelId, d: ChannelId)
    requires j != p
    requires forall x :: x in {c, d} ==>
      x in channels && channels[x].participants == [j, p] && channels[x].onPeerFailure.KillAll?
    ensures Killed(channels, j, [c, d]) == [p, p]
  {
    assert c in {c, d} && d in {c, d};
    FilterPair(j, p, x => x != j);
    assert Channels.Peers(channels[c], j) == [p] && Channels.Peers(channels[d], j) == [p];
    assert [c, d][..1] == [c] && [c][..0] == [];
    assert Killed(channels, j, [c]) == [p];
  }

  lemma RepetitionStays(s: Engine, j: JobId, note: Note)
    requires !Distinct(s.queue)
    ensures !Distinct(MarkFailed(s, j, note).queue)
  {
    var t := MarkFailed(s, j, note);
    if Distinct(t.queue) {
      assert t.queue == s.queue || t.queue == s.queue + [j];
      if t.queue == s.queue + [j] { DistinctParts(s.queue, [j]); }
    }
  }

  // Two channels shared by the same two jobs are enough to break it: when one
  // of the jobs fails, the other is killed, and queued, twice.
  lemma TwoSharedChannelsQueueTwice(s: Engine, j: JobId, p: JobId, c: ChannelId, d: ChannelId, note: Note)
    requires Distinct(s.queue) && j != p && p in s.jobs && s.jobs[p].attempt < s.jobs[p].maxAttempts
    requires Enumerates([c, d], ActiveChannelsOf(s, j))
    requires forall x :: x in {c, d} ==>
      x in s.channels && s.channels[x].participants == [j, p] && s.channels[x].onPeerFailure.KillAll?
    ensures !Distinct(OnFailed(s, j, note, [c, d]).queue)
  {
    PairOfPeers(s.channels, j, p, c, d);
    KilledTwice(s, j, p, [c, d]);
    RepetitionStays(FailPeers(s, j, [c, d]), j, note);
  }

  lemma KilledTwice(s: Engine, j: JobId, p: JobId, cs: seq<ChannelId>)
    requires Distinct(s.queue) && p in s.jobs && s.jobs[p].attempt < s.jobs[p].maxAttempts
    requires Killed(s.channels, j, cs) == [p, p]
    ensures !Distinct(FailPeers(s, j, cs).queue)
  {
    FailPeersShape(s, j, cs);
    KillsQueueOnceIff(s, [p, p], Note.PeerFailed(j));
    FilterPair(p, p, Retryable(s.jobs));
    var retried := Filter([p, p], Retryable(s.jobs));
    assert |retried| == 2 && retried[0] == retried[1];
  }

  lemma OnePeer(channels: map<ChannelId, Channel>, j: JobId, p: JobId, c: ChannelId)
    requires j != p && c in channels && channels[c].onPeerFailure.KillAll?
    requires channels[c].participants == [j, p] || channels[c].participants == [p, j]
    ensures Killed(channels, j, [c]) == [p]
  {
    FilterPair(j, p, x => x != j);
    FilterPair(p, j, x => x != j);
    assert Channels.Peers(channels[c], j) == [p];
    assert [c][..0] == [];
  }

  lemma OneHarmless(s: Engine, p: JobId)
    ensures KillsHarmless(s, [p]) <==> FailHarmless(s, p)
  {
    FilterLast([], p, Retryable(s.jobs));
    assert [] + [p] == [p];
    assert p in [p];
  }

  lemma OnlyKill(s: Engine, p: JobId)
    requires p in s.active
    ensures KillsOk(s, [p])
  {
    FilterLast([], p, Retryable(s.jobs));
    assert [] + [p] == [p];
  }

  // A failure that kills one peer fails that peer and then the job.
  lemma OneKill(s: Engine, j: JobId, p: JobId, c: ChannelId, note: Note)
    requires Killed(s.channels, j, [c]) == [p]
    ensures var u := MarkFailed(s, p, Note.PeerFailed(j));
      OnFailed(s, j, note, [c]) == MarkFailed(u.(channels := ClosedAt(s.channels, [c])), j, note)
  {
    hide MarkFailed, ClosedAt, FailPeers;
    FailPeersShape(s, j, [c]);
    assert [p][..0] == [];
  }

  lemma KilledOne(s: Engine, j: JobId, p: JobId, c: ChannelId, note: Note)
    requires p in s.jobs && j != p && !s.jobs[p].status.Ready? && Killed(s.channels, j, [c]) == [p]
    requires QueueOk(s.runs, s.jobs, s.queue)
    ensures var t := OnFailed(s, j, note, [c]);
      && p in t.jobs && p !in t.active && t.jobs[p] == Failing(s.jobs[p], Note.PeerFailed(j))
      && (p in t.queue <==> s.jobs[p].attempt < s.jobs[p].maxAttempts)
      && (forall x :: x in s.active && x != j && x != p ==> x in t.active)
      && t.channels == ClosedAt(s.channels, [c])
  {
    hide CheckCompletion, ClosedAt, Killed, OnFailed;
    OneKill(s, j, p, c, note);
    var u := MarkFailed(s, p, Note.PeerFailed(j));
    var t := MarkFailed(u.(channels := ClosedAt(s.channels, [c])), j, note);
    assert p !in s.queue;
    if u.jobs[p].status.Ready? {
      assert u.queue[|s.queue|] == p;
      assert p in t.queue;
    }
  }

  lemma SeatKept(s: Engine, t: Engine, q: JobId, c: ChannelId, d: ChannelId)
    requires Enumerates([d], ActiveChannelsOf(s, q)) && c != d && t.channels == ClosedAt(s.channels, [c])
    ensures Enumerates([d], ActiveChannelsOf(t, q)) && d in t.channels && d in s.channels && t.channels[d] == s.channels[d]
  {
    assert d in [d];
  }

  // A peer that is killed through one channel keeps its seat at its others, which
  // stay active. If it is still waiting to be started again when a peer there
  // fails, it is killed, and queued, a second time.
  lemma KilledThroughAnotherChannel(s: Engine, j: JobId, p: JobId, q: JobId, c: ChannelId, d: ChannelId, note: Note)
    requires Inv(s) && j in s.active && p in s.active && q in s.active && j != p && p != q && j != q && c != d
    requires s.jobs[p].attempt < s.jobs[p].maxAttempts
    requires c in s.channels && s.channels[c].participants == [j, p] && s.channels[c].onPeerFailure.KillAll?
    requires d in s.channels && s.channels[d].participants == [p, q] && s.channels[d].onPeerFailure.KillAll?
    requires Enumerates([c], ActiveChannelsOf(s, j)) && Enumerates([d], ActiveChannelsOf(s, q))
    ensures KillsOk(s, Killed(s.channels, j, [c]))
    ensures var t := OnFailed(s, j, note, [c]);
      && Inv(t) && p in t.queue && q in t.active && Enumerates([d], ActiveChannelsOf(t, q))
      && !Inv(OnFailed(t, q, note, [d]))
  {
    hide RecordsOk, CapOk, OnFailed, KillsHarmless, KillsOk, Killed, ClosedAt, ActiveChannelsOf;
    var t := OnFailed(s, j, note, [c]);
    OnePeer(s.channels, j, p, c);
    OnlyKill(s, p);
    OnFailedKeeps(s, j, note, [c]);
    KilledOne(s, j, p, c, note);
    SeatKept(s, t, q, c, d);
    OnePeer(t.channels, q, p, d);
    OneHarmless(t, p);
    OnFailedKeepsIff(t, q, note, [d]);
  }

  // A peer that has completed while its channel is still active is reopened by
  // the failure of another, and done again if it has attempts left; that breaks
  // the invariant if something has been started because of it.
  lemma CompletedPeerIsReopened(s: Engine, j: JobId, p: JobId, c: ChannelId, note: Note)
    requires Inv(s) && j in s.active && j != p && p in s.jobs && s.jobs[p].status.Completed?
    requires c in s.channels && s.channels[c].participants == [j, p] && s.channels[c].onPeerFailure.KillAll?
    requires Enumerates([c], ActiveChannelsOf(s, j))
    ensures var t := OnFailed(s, j, note, [c]);
      && p in t.jobs && !t.jobs[p].status.Completed?
      && (p in t.queue <==> s.jobs[p].attempt < s.jobs[p].maxAttempts)
      && (Inv(t) <==> NobodyStarted(s.jobs, p))
  {
    hide RecordsOk, CapOk, OnFailed, KillsHarmless, Killed, NobodyStarted;
    OnePeer(s.channels, j, p, c);
    OneHarmless(s, p);
    OnFailedKeepsIff(s, j, note, [c]);
    KilledOne(s, j, p, c, note);
    assert p !in s.active;
  }
}
