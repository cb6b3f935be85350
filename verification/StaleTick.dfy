/** The timer lists the jobs without a heartbeat first and then fails them one
    by one, starting queued jobs in between. A job on the list may meanwhile
    have been killed, and queued again, as the peer of an earlier one. */
module StaleTick {
  import opened Types
  import opened Collections
  import opened EngineSpec
  import opened EngineInv
  import opened EngineExact
  import opened EngineLife
  import opened Failures
  import opened Daemon
  import opened DaemonFrame
  import opened Progress
  import Channels

  // Spawning, some number of times.
  ghost function SpawnAll(s: Engine, now: int, n: nat): Engine {
    if n == 0 then s else Spawn(SpawnAll(s, now, n - 1), now)
  }

  ghost predicate QueuedOrRunning(s: Engine, p: JobId) {
    p in s.queue || p in s.active
  }

  lemma {:induction false} SpawnAllKeeps(s: Engine, now: int, n: nat, p: JobId)
    requires Inv(s) && QueuedOrRunning(s, p)
    ensures Inv(SpawnAll(s, now, n)) && QueuedOrRunning(SpawnAll(s, now, n), p)
  {
    hide Inv, Spawn, DepsDone;
    if n > 0 {
      var t := SpawnAll(s, now, n - 1);
      SpawnAllKeeps(s, now, n - 1, p);
      SpawnKeeps(t, now);
      SpawnShape(t, now);
      if Picked(t).Some? {
        StartedIsUnblocked(t, now);
        assert t.queue == [t.queue[0]] + t.queue[1..];
      }
    }
  }

  // Jobs j and p are both on the list, and p is killed as a peer of j. If all
  // the slots have gone to others by the time the list comes to p, failing it
  // as well breaks the queue: p is in it already.
  lemma StaleTogetherBreaks(s: Engine, j: JobId, p: JobId, note: Note, cs: seq<ChannelId>, now: int, n: nat)
    requires Inv(s) && Enabled(s, JobFailed(j, note, cs)) && p in Killed(s.channels, j, cs)
    requires p in s.jobs && s.jobs[p].attempt < s.jobs[p].maxAttempts
    ensures var t := SpawnAll(OnFailed(s, j, note, cs), now, n);
      && Inv(t)
      && (Inv(MarkFailed(t, p, note)) <==> p in t.active)
  {
    hide RecordsOk, QueueOk, SlotsOk, CapOk, FailAll, FailPeers, MarkFailed, Enabled, FailHarmless;
    var u := OnFailed(s, j, note, cs);
    StepKeepsInv(0, s, JobFailed(j, note, cs));
    PeerIsQueued(s, j, p, note, cs);
    SpawnAllKeeps(u, now, n, p);
    var t := SpawnAll(u, now, n);
    FailKeepsInvIff(t, p, note);
    HarmlessIff(t, p);
  }

  lemma HarmlessIff(t: Engine, p: JobId)
    requires QueueOk(t.runs, t.jobs, t.queue) && SlotsOk(t.jobs, t.active) && QueuedOrRunning(t, p)
    ensures FailHarmless(t, p) <==> p in t.active
  {
  }

  lemma PeerIsQueued(s: Engine, j: JobId, p: JobId, note: Note, cs: seq<ChannelId>)
    requires p in Killed(s.channels, j, cs) && p in s.jobs && s.jobs[p].attempt < s.jobs[p].maxAttempts
    ensures QueuedOrRunning(OnFailed(s, j, note, cs), p)
  {
    hide FailAll, Killed, ClosedAt;
    var kills := Killed(s.channels, j, cs);
    FailPeersShape(s, j, cs);
    FailAllQueue(s, kills, Note.PeerFailed(j));
    assert Retryable(s.jobs)(p);
    assert p in Filter(kills, Retryable(s.jobs));
    StaysQueued(FailPeers(s, j, cs), j, p, note);
  }

  lemma StaysQueued(u: Engine, j: JobId, p: JobId, note: Note)
    requires p in u.queue
    ensures p in MarkFailed(u, j, note).queue
  {
  }
}
