/** Two things that come of killing and restarting a daemon that does everything
    right: starts are forgotten, without bound, and the runs a graceful shutdown
    cancels are taken up again. */
module Restarts {
  import opened Types
  import opened Collections
  import opened EngineSpec
  import opened EngineInv
  import opened EngineLife
  import opened Failures
  import opened Daemon
  import opened DaemonFrame
  import opened Progress
  import opened ChannelLife
  import opened RunFrame
  import opened Rest
  import opened Starts
  import opened Recovery
  import opened Cancellation

  // ---- Acts one after the other ----

  lemma {:induction false} ActsJoin(maxRevisions: nat, sys: Sys, a: seq<Act>, b: seq<Act>)
    requires MayAll(maxRevisions, sys, a) && MayAll(maxRevisions, DoAll(maxRevisions, sys, a), b)
    ensures MayAll(maxRevisions, sys, a + b)
    ensures DoAll(maxRevisions, sys, a + b) == DoAll(maxRevisions, DoAll(maxRevisions, sys, a), b)
    ensures forall j ::
      ActStarts(maxRevisions, sys, a + b, j)
      == ActStarts(maxRevisions, sys, a, j) + ActStarts(maxRevisions, DoAll(maxRevisions, sys, a), b, j)
    decreases |b|
  {
    hide Do, May, StartedBy;
    if b == [] {
      assert a + b == a;
    } else {
      var n := |b| - 1;
      ActsJoin(maxRevisions, sys, a, b[..n]);
      assert (a + b)[..|a + b| - 1] == a + b[..n] && (a + b)[|a + b| - 1] == b[n];
    }
  }

  lemma OneAct(maxRevisions: nat, sys: Sys, act: Act)
    requires May(sys, act)
    ensures MayAll(maxRevisions, sys, [act]) && DoAll(maxRevisions, sys, [act]) == Do(maxRevisions, sys, act)
    ensures forall j ::
      ActStarts(maxRevisions, sys, [act], j)
      == (if act.Handle? && StartedBy(sys.engine, act.event) == Some(j) then 1 else 0)
  {
    hide Do, May, StartedBy;
    assert [act][..0] == [];
    assert DoAll(maxRevisions, sys, []) == sys;
    assert forall j :: ActStarts(maxRevisions, sys, [], j) == 0;
  }

  // ---- Turns of the daemon ----

  // A message is handled; queued jobs are started until there are none or the
  // slots are full; channels are activated; the run is saved. Or the daemon is
  // killed and started again.
  datatype Turn = Message(event: Event, run: RunId, spawns: nat) | Killed(queue: seq<JobId>)

  function Spawning(n: nat): seq<Act> {
    if n == 0 then [] else Spawning(n - 1) + [Handle(SpawnJob(0), false)]
  }

  function TurnActs(turn: Turn): seq<Act> {
    match turn
    case Message(e, r, n) => [Handle(e, true)] + (Spawning(n) + [Handle(ActivateReady, false), Save(r)])
    case Killed(queue) => [Kill(queue)]
  }

  function AllActs(turns: seq<Turn>): seq<Act> {
    if turns == [] then [] else AllActs(turns[..|turns| - 1]) + TurnActs(turns[|turns| - 1])
  }

  ghost predicate Drained(s: Engine) {
    s.queue == [] || |s.active| >= s.cap
  }

  // Every turn is of a message that is no start, saves the run the message is
  // about, and leaves no job waiting while a slot is free.
  ghost predicate Eager(maxRevisions: nat, sys: Sys, turns: seq<Turn>) {
    turns != [] ==>
      var n := |turns| - 1;
      var before, after := DoAll(maxRevisions, sys, AllActs(turns[..n])), DoAll(maxRevisions, sys, AllActs(turns));
      && Eager(maxRevisions, sys, turns[..n])
      && (turns[n].Message? ==>
            && !IsStart(turns[n].event) && RunOf(before.engine, turns[n].event) == Some(turns[n].run)
            && Drained(after.engine))
  }

  // ---- Spawning until the queue is drained ----

  ghost function Spawned(s: Engine, n: nat): Engine {
    if n == 0 then s else Spawn(Spawned(s, n - 1), 0)
  }

  lemma {:induction false} SpawningActs(maxRevisions: nat, sys: Sys, n: nat)
    ensures MayAll(maxRevisions, sys, Spawning(n))
    ensures DoAll(maxRevisions, sys, Spawning(n)) == Sys(Spawned(sys.engine, n), sys.disk)
  {
    hide Spawn;
    if n > 0 {
      SpawningActs(maxRevisions, sys, n - 1);
      assert Spawning(n)[..|Spawning(n)| - 1] == Spawning(n - 1);
    }
  }

  lemma {:induction false} SpawnedKeeps(s: Engine, n: nat)
    requires Inv(s)
    ensures Inv(Spawned(s, n)) && Spawned(s, n).cap == s.cap && Spawned(s, n).jobs.Keys == s.jobs.Keys
    ensures Spawned(s, n).runs.Keys == s.runs.Keys
  {
    hide Inv, Spawn;
    if n > 0 {
      var t := Spawned(s, n - 1);
      SpawnedKeeps(s, n - 1);
      SpawnKeeps(t, 0);
      SpawnSame(t);
    }
  }

  lemma SpawnSame(t: Engine)
    requires Inv(t)
    ensures var u := Spawn(t, 0);
      u.cap == t.cap && u.jobs.Keys == t.jobs.Keys && u.runs.Keys == t.runs.Keys && |u.queue| <= |t.queue|
    ensures !Drained(t) ==> |Spawn(t, 0).queue| < |t.queue|
  {
    SpawnShape(t, 0);
    if !Drained(t) {
      assert t.queue[0] in t.queue;
    }
  }

  lemma {:induction false} DrainFrom(s: Engine, k: nat) returns (n: nat)
    requires Inv(s)
    ensures n >= k && Drained(Spawned(s, n))
    decreases |Spawned(s, k).queue|
  {
    hide Inv, Drained, Spawn;
    var t := Spawned(s, k);
    if Drained(t) {
      n := k;
    } else {
      SpawnedKeeps(s, k);
      SpawnSame(t);
      n := DrainFrom(s, k + 1);
    }
  }

  // The job at the head of the queue is started, once, and holds its slot.
  lemma {:induction false} HeadStartsOnce(maxRevisions: nat, sys: Sys, n: nat, j: JobId)
    requires Inv(sys.engine) && !Drained(sys.engine) && sys.engine.queue[0] == j && n > 0
    ensures ActStarts(maxRevisions, sys, Spawning(n), j) == 1
    ensures var t := Spawned(sys.engine, n);
      && j in sys.engine.jobs && j in t.active && j in t.jobs
      && t.jobs[j] == sys.engine.jobs[j].(status := JobStatus.Running, attempt := sys.engine.jobs[j].attempt + 1)
  {
    hide Inv, Spawn, DoAll, Do, DepsDone, Drained;
    var acts := Spawning(n);
    assert acts[..|acts| - 1] == Spawning(n - 1);
    SpawningActs(maxRevisions, sys, n - 1);
    SpawnedKeeps(sys.engine, n - 1);
    if n == 1 {
      assert acts[..0] == [];
      HeadStarts(sys.engine, j);
    } else {
      HeadStartsOnce(maxRevisions, sys, n - 1, j);
      RunningStays(Spawned(sys.engine, n - 1), j);
    }
  }

  lemma HeadStarts(t: Engine, j: JobId)
    requires Inv(t) && !Drained(t) && t.queue[0] == j
    ensures var u := Spawn(t, 0);
      && Picked(t) == Some(j) && j in t.jobs && j in u.active && j in u.jobs
      && u.jobs[j] == t.jobs[j].(status := JobStatus.Running, attempt := t.jobs[j].attempt + 1)
  {
    SpawnShape(t, 0);
    assert t.queue[0] in t.queue;
  }

  lemma RunningStays(t: Engine, j: JobId)
    requires Inv(t) && j in t.active
    ensures var u := Spawn(t, 0);
      Picked(t) != Some(j) && j in t.jobs && j in u.active && j in u.jobs && u.jobs[j] == t.jobs[j]
  {
    hide RecordsOk, CapOk;
    SpawnShape(t, 0);
    if Picked(t).Some? { assert t.queue[0] in t.queue; }
  }

  // ---- One planner, started again and again ----

  const FIRST := JobId(0)

  // Submitting run n.
  function Submission(n: nat): Event {
    SubmitRun(RunId(n), JobId(n), [])
  }

  // The daemon has just been started, runs 0 to n - 1 have been submitted, and
  // the planner of run 0 is first in the queue, but its record says that it is
  // Running, on its first attempt. Or nothing has happened yet.
  ghost predicate StartedAfresh(sys: Sys, cap: nat, n: nat) {
    && PromptInv(sys) && sys.engine.cap == cap && sys.engine.active == map[]
    && (forall j :: j in sys.engine.jobs ==> j.n < n) && (forall r :: r in sys.engine.runs ==> r.n < n)
    && if n == 0 then sys == Fresh(cap)
       else
         && FIRST in sys.disk.jobs && FIRST in sys.engine.jobs && RecordedOnce(sys.disk.jobs[FIRST])
         && sys.engine.queue != [] && sys.engine.queue[0] == FIRST
  }

  ghost predicate RecordedOnce(b: Job) {
    b.run == RunId(0) && b.status.Running? && b.attempt == 1 && b.maxAttempts == MAX_ATTEMPTS
  }

  // After the turn that submits run n.
  ghost predicate Submitted(sys: Sys, cap: nat, n: nat) {
    && PromptInv(sys) && sys.engine.cap == cap && Drained(sys.engine)
    && (forall j :: j in sys.engine.jobs ==> j.n <= n) && (forall r :: r in sys.engine.runs ==> r.n <= n)
    && FIRST in sys.disk.jobs && RecordedOnce(sys.disk.jobs[FIRST])
  }

  lemma PromptActs(maxRevisions: nat, sys: Sys, act: Act)
    requires PromptInv(sys) && May(sys, act) && (act.Handle? && !IsStart(act.event) ==> act.saved)
    ensures PromptInv(Do(maxRevisions, sys, act))
  {
    hide PromptInv, May, Do;
    assert Prompt([act]);
    ActKeepsPrompt(maxRevisions, sys, act);
  }

  lemma {:induction false} SpawningKeepsPrompt(maxRevisions: nat, sys: Sys, n: nat)
    requires PromptInv(sys)
    ensures PromptInv(DoAll(maxRevisions, sys, Spawning(n)))
  {
    hide PromptInv, Do;
    if n > 0 {
      SpawningKeepsPrompt(maxRevisions, sys, n - 1);
      assert Spawning(n)[..|Spawning(n)| - 1] == Spawning(n - 1);
      PromptActs(maxRevisions, DoAll(maxRevisions, sys, Spawning(n - 1)), Handle(SpawnJob(0), false));
    }
  }

  lemma PromptParts(sys: Sys)
    requires PromptInv(sys)
    ensures Inv(sys.engine) && sys.disk.jobs.Keys == sys.engine.jobs.Keys
  {
  }

  // Run n is submitted, and saved.
  lemma Submits(maxRevisions: nat, sys: Sys, cap: nat, n: nat) returns (a: Sys)
    requires cap >= 1 && StartedAfresh(sys, cap, n)
    ensures May(sys, Handle(Submission(n), true)) && a == Do(maxRevisions, sys, Handle(Submission(n), true))
    ensures PromptInv(a) && a.engine.cap == cap && a.engine.active == map[]
    ensures a.engine.queue != [] && a.engine.queue[0] == FIRST && FIRST in a.engine.jobs && FIRST in a.disk.jobs
    ensures n > 0 ==> RecordedOnce(a.disk.jobs[FIRST])
    ensures n == 0 ==> a.engine.jobs[FIRST] == NewJob(RunId(0), None, Planner, JobStatus.Ready, [], "planner", [], [], 0)
    ensures (forall j :: j in a.engine.jobs ==> j.n <= n) && (forall r :: r in a.engine.runs ==> r.n <= n)
  {
    hide PromptInv;
    a := Do(maxRevisions, sys, Handle(Submission(n), true));
    PromptActs(maxRevisions, sys, Handle(Submission(n), true));
    if n > 0 { FirstRun(sys, cap, n); }
  }

  // Starting what is queued starts the planner of run 0, once.
  lemma Spawns(maxRevisions: nat, a: Sys) returns (k: nat, b: Sys)
    requires PromptInv(a) && a.engine.active == map[] && a.engine.cap >= 1
    requires a.engine.queue != [] && a.engine.queue[0] == FIRST && FIRST in a.engine.jobs
    ensures MayAll(maxRevisions, a, Spawning(k)) && b == DoAll(maxRevisions, a, Spawning(k))
    ensures PromptInv(b) && Drained(b.engine) && b.engine.cap == a.engine.cap && b.disk == a.disk
    ensures b.engine.jobs.Keys == a.engine.jobs.Keys && b.engine.runs.Keys == a.engine.runs.Keys && FIRST in b.engine.jobs
    ensures b.engine.jobs[FIRST] ==
      a.engine.jobs[FIRST].(status := JobStatus.Running, attempt := a.engine.jobs[FIRST].attempt + 1)
    ensures ActStarts(maxRevisions, a, Spawning(k), FIRST) == 1
  {
    hide PromptInv, Inv, Spawned, DoAll, MayAll, ActStarts;
    PromptParts(a);
    assert !Drained(a.engine);
    k := DrainFrom(a.engine, 1);
    b := DoAll(maxRevisions, a, Spawning(k));
    SpawningActs(maxRevisions, a, k);
    SpawningKeepsPrompt(maxRevisions, a, k);
    SpawnedKeeps(a.engine, k);
    HeadStartsOnce(maxRevisions, a, k, FIRST);
  }

  // Activating channels and saving the run submitted ends the turn.
  lemma Finishes(maxRevisions: nat, b: Sys, n: nat) returns (d: Sys)
    requires PromptInv(b) && Drained(b.engine) && FIRST in b.engine.jobs && FIRST in b.disk.jobs
    requires n > 0 ==> RecordedOnce(b.disk.jobs[FIRST]) && b.engine.jobs[FIRST].run == RunId(0)
    requires n == 0 ==> RecordedOnce(b.engine.jobs[FIRST])
    ensures var last := [Handle(ActivateReady, false), Save(RunId(n))];
      && MayAll(maxRevisions, b, last) && d == DoAll(maxRevisions, b, last)
      && forall j :: ActStarts(maxRevisions, b, last, j) == 0
    ensures PromptInv(d) && Drained(d.engine) && d.engine.cap == b.engine.cap
    ensures d.engine.jobs == b.engine.jobs && d.engine.runs == b.engine.runs
    ensures FIRST in d.disk.jobs && RecordedOnce(d.disk.jobs[FIRST])
  {
    hide PromptInv;
    var first, second := Handle(ActivateReady, false), Save(RunId(n));
    var c := Do(maxRevisions, b, first);
    d := Do(maxRevisions, c, second);
    PromptActs(maxRevisions, b, first);
    PromptActs(maxRevisions, c, second);
    OneAct(maxRevisions, b, first);
    OneAct(maxRevisions, c, second);
    ActsJoin(maxRevisions, b, [first], [second]);
    assert [first] + [second] == [first, second];
    SavedFirst(c, n);
  }

  lemma SavedFirst(c: Sys, n: nat)
    requires FIRST in c.engine.jobs && FIRST in c.disk.jobs
    requires n > 0 ==> RecordedOnce(c.disk.jobs[FIRST]) && c.engine.jobs[FIRST].run == RunId(0)
    requires n == 0 ==> RecordedOnce(c.engine.jobs[FIRST])
    ensures var d := Saved(c.disk, c.engine, RunId(n)); FIRST in d.jobs && RecordedOnce(d.jobs[FIRST])
  {
  }

  lemma FirstRun(sys: Sys, cap: nat, n: nat)
    requires StartedAfresh(sys, cap, n) && n > 0
    ensures sys.engine.jobs[FIRST].run == RunId(0)
  {
    assert JobLags(sys.disk.jobs[FIRST], sys.engine.jobs[FIRST]);
  }

  // One whole turn: run n is submitted, and the planner of run 0 started.
  lemma SubmitTurn(maxRevisions: nat, sys: Sys, cap: nat, n: nat) returns (turn: Turn)
    requires cap >= 1 && StartedAfresh(sys, cap, n)
    ensures turn.Message? && turn.event == Submission(n) && turn.run == RunId(n)
    ensures var acts := TurnActs(turn);
      && MayAll(maxRevisions, sys, acts) && Submitted(DoAll(maxRevisions, sys, acts), cap, n)
      && ActStarts(maxRevisions, sys, acts, FIRST) == 1
  {
    hide PromptInv, Inv, DoAll, MayAll, ActStarts, StartedAfresh, Do, May, Spawning, RecordedOnce, Drained;
    var a := Submits(maxRevisions, sys, cap, n);
    var k, b := Spawns(maxRevisions, a);
    if n > 0 {
      FirstRun(sys, cap, n);
      SubmittedFirst(maxRevisions, sys, cap, n);
    } else {
      RecordedFirst(a, b);
    }
    var d := Finishes(maxRevisions, b, n);
    turn := Message(Submission(n), RunId(n), k);
    var last := [Handle(ActivateReady, false), Save(RunId(n))];
    ActsJoin(maxRevisions, a, Spawning(k), last);
    OneAct(maxRevisions, sys, Handle(Submission(n), true));
    ActsJoin(maxRevisions, sys, [Handle(Submission(n), true)], Spawning(k) + last);
    assert TurnActs(turn) == [Handle(Submission(n), true)] + (Spawning(k) + last);
  }

  lemma RecordedFirst(a: Sys, b: Sys)
    requires FIRST in a.engine.jobs && FIRST in b.engine.jobs
    requires a.engine.jobs[FIRST] == NewJob(RunId(0), None, Planner, JobStatus.Ready, [], "planner", [], [], 0)
    requires b.engine.jobs[FIRST] ==
      a.engine.jobs[FIRST].(status := JobStatus.Running, attempt := a.engine.jobs[FIRST].attempt + 1)
    ensures RecordedOnce(b.engine.jobs[FIRST])
  {
  }

  lemma SubmittedFirst(maxRevisions: nat, sys: Sys, cap: nat, n: nat)
    requires StartedAfresh(sys, cap, n) && n > 0
    ensures var a := Do(maxRevisions, sys, Handle(Submission(n), true));
      FIRST in a.engine.jobs && a.engine.jobs[FIRST] == sys.engine.jobs[FIRST]
  {
  }

  // The Ready jobs in an order that begins with a given one.
  lemma {:induction false} ListFrom(xs: set<JobId>, x: JobId) returns (order: seq<JobId>)
    requires x in xs
    ensures Enumerates(order, xs) && order[0] == x
    decreases |xs|
  {
    if xs == {x} {
      order := [x];
    } else {
      var y :| y in xs && y != x;
      var front := ListFrom(xs - {y}, x);
      DistinctConcat(front, [y]);
      order := front + [y];
    }
  }

  // The daemon is killed: the start is forgotten, and the planner is first again.
  lemma KilledTurn(maxRevisions: nat, sys: Sys, cap: nat, n: nat) returns (queue: seq<JobId>)
    requires Submitted(sys, cap, n)
    ensures May(sys, Kill(queue)) && StartedAfresh(Do(maxRevisions, sys, Kill(queue)), cap, n + 1)
  {
    hide PromptInv;
    RecoveredIs(sys.disk.jobs, FIRST);
    queue := ListFrom(ReadyJobs(RestartedJobs(sys.disk.jobs)), FIRST);
    PromptActs(maxRevisions, sys, Kill(queue));
    SameNames(sys);
  }

  lemma SameNames(sys: Sys)
    requires PromptInv(sys)
    ensures sys.disk.jobs.Keys == sys.engine.jobs.Keys && sys.disk.runs.Keys == sys.engine.runs.Keys
  {
  }

  lemma {:induction false} TurnsArePrompt(turns: seq<Turn>)
    ensures Prompt(AllActs(turns))
  {
    if turns != [] {
      TurnsArePrompt(turns[..|turns| - 1]);
      if turns[|turns| - 1].Message? { SpawningIsStarts(turns[|turns| - 1].spawns); }
    }
  }

  lemma {:induction false} SpawningIsStarts(n: nat)
    ensures forall i :: 0 <= i < |Spawning(n)| ==> Spawning(n)[i] == Handle(SpawnJob(0), false)
  {
    if n > 0 {
      SpawningIsStarts(n - 1);
    }
  }

  // There is no bound on how often a job is started, whatever the number of
  // slots: for every n there are n turns of a daemon that starts all it can and
  // saves every run it hears of, with kills in between, in which the planner of
  // run 0 is started n times.
  lemma {:induction false} StartsUnbounded(maxRevisions: nat, cap: nat, n: nat) returns (turns: seq<Turn>)
    requires cap >= 1
    ensures MayAll(maxRevisions, Fresh(cap), AllActs(turns)) && Prompt(AllActs(turns))
    ensures Eager(maxRevisions, Fresh(cap), turns)
    ensures StartedAfresh(DoAll(maxRevisions, Fresh(cap), AllActs(turns)), cap, n)
    ensures ActStarts(maxRevisions, Fresh(cap), AllActs(turns), FIRST) == n
  {
    hide StartedAfresh, Submitted, DoAll, MayAll, ActStarts, Do, May, TurnActs;
    if n == 0 {
      turns := [];
      NothingStarted(maxRevisions, cap);
    } else {
      var front := StartsUnbounded(maxRevisions, cap, n - 1);
      var sys := DoAll(maxRevisions, Fresh(cap), AllActs(front));
      var turn := SubmitTurn(maxRevisions, sys, cap, n - 1);
      var t := DoAll(maxRevisions, sys, TurnActs(turn));
      ActsJoin(maxRevisions, Fresh(cap), AllActs(front), TurnActs(turn));
      TurnAdded(maxRevisions, Fresh(cap), front, turn, cap, n - 1);
      var middle := front + [turn];
      var queue := KilledTurn(maxRevisions, t, cap, n - 1);
      KillAdded(maxRevisions, Fresh(cap), middle, queue);
      turns := middle + [Killed(queue)];
    }
    TurnsArePrompt(turns);
  }

  lemma NothingStarted(maxRevisions: nat, cap: nat)
    ensures MayAll(maxRevisions, Fresh(cap), AllActs([])) && StartedAfresh(DoAll(maxRevisions, Fresh(cap), AllActs([])), cap, 0)
    ensures ActStarts(maxRevisions, Fresh(cap), AllActs([]), FIRST) == 0
  {
    FreshIsPrompt(cap);
  }

  lemma TurnAdded(maxRevisions: nat, sys: Sys, front: seq<Turn>, turn: Turn, cap: nat, n: nat)
    requires Eager(maxRevisions, sys, front) && turn.Message? && turn.event == Submission(n) && turn.run == RunId(n)
    requires DoAll(maxRevisions, sys, AllActs(front) + TurnActs(turn))
          == DoAll(maxRevisions, DoAll(maxRevisions, sys, AllActs(front)), TurnActs(turn))
    requires Submitted(DoAll(maxRevisions, sys, AllActs(front) + TurnActs(turn)), cap, n)
    ensures AllActs(front + [turn]) == AllActs(front) + TurnActs(turn) && Eager(maxRevisions, sys, front + [turn])
  {
    hide DoAll, TurnActs, PromptInv, RecordedOnce;
    assert (front + [turn])[..|front|] == front;
  }

  lemma KillAdded(maxRevisions: nat, sys: Sys, front: seq<Turn>, queue: seq<JobId>)
    requires Eager(maxRevisions, sys, front) && MayAll(maxRevisions, sys, AllActs(front))
    requires May(DoAll(maxRevisions, sys, AllActs(front)), Kill(queue))
    ensures var turns, t := front + [Killed(queue)], DoAll(maxRevisions, sys, AllActs(front));
      && Eager(maxRevisions, sys, turns) && MayAll(maxRevisions, sys, AllActs(turns))
      && DoAll(maxRevisions, sys, AllActs(turns)) == Do(maxRevisions, t, Kill(queue))
      && forall j :: ActStarts(maxRevisions, sys, AllActs(turns), j) == ActStarts(maxRevisions, sys, AllActs(front), j)
  {
    hide Do, May, DoAll, MayAll, ActStarts;
    assert (front + [Killed(queue)])[..|front|] == front;
    var t := DoAll(maxRevisions, sys, AllActs(front));
    OneAct(maxRevisions, t, Kill(queue));
    ActsJoin(maxRevisions, sys, AllActs(front), [Kill(queue)]);
  }

  // And so for the histories of module Daemon.
  lemma HistoriesUnbounded(maxRevisions: nat, cap: nat, n: nat) returns (history: seq<Event>)
    requires cap >= 1
    ensures Legal(maxRevisions, Init(cap), history) && StartCount(maxRevisions, Init(cap), history, FIRST) == n
  {
    hide Legal, StartCount, MayAll, DoAll, ActStarts, AllActs, Eager, Prompt, StartedAfresh;
    var turns := StartsUnbounded(maxRevisions, cap, n);
    history := PromptIsHistory(maxRevisions, cap, AllActs(turns));
  }

  // ---- A graceful shutdown ----

  // Before it exits the daemon cancels every run that is undecided, and saves it.
  datatype Withdrawal = Withdrawal(run: RunId, order: seq<JobId>)

  function Withdrawals(runs: seq<Withdrawal>): seq<Act> {
    if runs == [] then []
    else
      var n := |runs| - 1;
      Withdrawals(runs[..n]) + [Handle(Cancel(runs[n].run, runs[n].order), true)]
  }

  // What cancelling its run makes of a job.
  function Withdrawn(b: Job): Job {
    if Terminal(b.status) then b
    else b.(error := Some(CancelledByUser),
            status := if b.attempt < b.maxAttempts then JobStatus.Ready else JobStatus.Failed)
  }

  ghost predicate ShutDown(s: Engine, t: Engine, r: RunId) {
    && AtRest(t, r)
    && (forall j :: j in t.jobs && t.jobs[j].run == r ==> j in s.jobs && s.jobs[j].run == r)
    && (forall j :: j in s.jobs && s.jobs[j].run == r ==> j in t.jobs && t.jobs[j] == Withdrawn(s.jobs[j]))
  }

  lemma CancelShutsDown(s: Engine, r: RunId, order: seq<JobId>)
    requires Inv(s) && Undecided(s.runs, r) && Enabled(s, Cancel(r, order))
    ensures ShutDown(s, CancelRun(s, r, order), r)
    ensures forall x :: x in s.runs && x != r ==> Untouched(s, CancelRun(s, r, order), x)
  {
    hide RecordsOk, QueueOk, CapOk, FailAll, Filter, CancelRun;
    CancelSpec(s, r, order);
    CancelledShutsDown(s, CancelRun(s, r, order), r);
  }

  lemma CancelledShutsDown(s: Engine, t: Engine, r: RunId)
    requires SlotsOk(s.jobs, s.active) && EngineLife.Cancelled(s, t, r)
    ensures ShutDown(s, t, r)
    ensures forall x :: x in s.runs && x != r ==> Untouched(s, t, x)
  {
    hide Filter;
    CancelledRests(s, t, r);
  }

  lemma ShutDownUntouched(s: Engine, t: Engine, u: Engine, r: RunId)
    requires Untouched(s, t, r) && ShutDown(t, u, r)
    ensures ShutDown(s, u, r)
  {
    hide AtRest;
  }

  lemma ShutDownStays(s: Engine, t: Engine, u: Engine, r: RunId)
    requires ShutDown(s, t, r) && AtRest(u, r) && Untouched(t, u, r)
    ensures ShutDown(s, u, r)
  {
    hide AtRest;
  }

  // Once the given runs are withdrawn, those that were undecided are shut down,
  // and all that was not withdrawn is as it was.
  lemma {:induction false} WithdrawalsShutDown(maxRevisions: nat, sys: Sys, runs: seq<Withdrawal>, r: RunId)
    requires PromptInv(sys) && MayAll(maxRevisions, sys, Withdrawals(runs)) && r in sys.engine.runs
    ensures var t := DoAll(maxRevisions, sys, Withdrawals(runs));
      && PromptInv(t)
      && (if Undecided(sys.engine.runs, r) && exists w :: w in runs && w.run == r then ShutDown(sys.engine, t.engine, r)
          else Untouched(sys.engine, t.engine, r))
  {
    hide PromptInv, Do, ShutDown, Untouched, Undecided, Enabled, Step;
    if runs == [] {
      UntouchedByNothing(sys.engine, r);
    } else {
      var n := |runs| - 1;
      var w := runs[n];
      var acts, act := Withdrawals(runs[..n]), Handle(Cancel(w.run, w.order), true);
      assert Withdrawals(runs)[..|acts|] == acts && Withdrawals(runs)[|acts|] == act;
      var t := DoAll(maxRevisions, sys, acts);
      WithdrawalsShutDown(maxRevisions, sys, runs[..n], r);
      PromptActs(maxRevisions, t, act);
      OneMoreWithdrawal(maxRevisions, sys.engine, t, runs[..n], w, r);
      assert runs == runs[..n] + [w];
    }
  }

  lemma UntouchedByNothing(s: Engine, r: RunId)
    requires r in s.runs
    ensures Untouched(s, s, r)
  {
  }

  lemma OneMoreWithdrawal(maxRevisions: nat, s: Engine, t: Sys, runs: seq<Withdrawal>, w: Withdrawal, r: RunId)
    requires PromptInv(t) && May(t, Handle(Cancel(w.run, w.order), true)) && r in s.runs
    requires if Undecided(s.runs, r) && exists x :: x in runs && x.run == r then ShutDown(s, t.engine, r)
             else Untouched(s, t.engine, r)
    ensures var u := Do(maxRevisions, t, Handle(Cancel(w.run, w.order), true)).engine;
      if Undecided(s.runs, r) && exists x :: x in runs + [w] && x.run == r then ShutDown(s, u, r)
      else Untouched(s, u, r)
  {
    hide RecordsOk, QueueOk, SlotsOk, CapOk, SeatsOk, Lags, CancelRun, AtRest, Saved;
    var u := Do(maxRevisions, t, Handle(Cancel(w.run, w.order), true)).engine;
    assert u == CancelRun(t.engine, w.run, w.order);
    var before := exists x :: x in runs && x.run == r;
    assert (exists x :: x in runs + [w] && x.run == r) <==> before || w.run == r by {
      assert w in runs + [w];
    }
    if Undecided(s.runs, r) && before {
      assert AtRest(t.engine, r);
      CancelRests(t.engine, w.run, w.order);
      ShutDownStays(s, t.engine, u, r);
    } else if Undecided(t.engine.runs, w.run) {
      CancelShutsDown(t.engine, w.run, w.order);
      if w.run == r {
        ShutDownUntouched(s, t.engine, u, r);
      } else {
        UntouchedTransitive(s, t.engine, u, r);
      }
    } else {
      RefusedCancellation(t.engine, w.run, w.order);
    }
  }

  lemma RefusedCancellation(s: Engine, r: RunId, order: seq<JobId>)
    requires !Undecided(s.runs, r)
    ensures CancelRun(s, r, order) == s
  {
  }

  // A graceful shutdown and the next start: every run that was undecided says
  // Cancelled, but its planner is queued to be started again, unless it was
  // finished or on its last attempt.
  lemma ShutdownRevives(maxRevisions: nat, sys: Sys, runs: seq<Withdrawal>, queue: seq<JobId>, r: RunId, j: JobId)
    requires PromptInv(sys) && MayAll(maxRevisions, sys, Withdrawals(runs))
    requires Undecided(sys.engine.runs, r) && (exists w :: w in runs && w.run == r) && j in RunJobs(sys.engine.jobs, r)
    requires May(DoAll(maxRevisions, sys, Withdrawals(runs)), Kill(queue))
    ensures var b, t := sys.engine.jobs[j], Do(maxRevisions, DoAll(maxRevisions, sys, Withdrawals(runs)), Kill(queue)).engine;
      && Inv(t) && CancelledRun(t.runs, r) && j in t.jobs && t.jobs[j] == Withdrawn(b)
      && (j in t.queue <==> !Terminal(b.status) && b.attempt < b.maxAttempts)
  {
    hide PromptInv, Inv, DoAll, MayAll, Enabled, AtRest, Refreshed, Restarted;
    WithdrawalsShutDown(maxRevisions, sys, runs, r);
    var t := DoAll(maxRevisions, sys, Withdrawals(runs));
    PromptParts(t);
    KillIsRestart(maxRevisions, t, queue);
    RestartRevivesIff(t.engine, Refreshed(t.disk, t.engine), queue, r, j);
    StepKeepsInv(maxRevisions, t.engine, Restart(Refreshed(t.disk, t.engine), queue));
  }
}
