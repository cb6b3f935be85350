/** The state of `OrchestratorEngine` and what each of its calls does to it.
    These functions are the specification the classes in EngineImpl and
    DaemonImpl are proved against; they say what the new state is all at once
    (a map comprehension, a filter) where the program gets there by loops over
    hash tables. Two choices of the program appear as arguments: the order in
    which a hash table is iterated, and the identifiers `gen_id` hands out. */
module EngineSpec {
  import opened Types
  import opened Collections
  import opened Materialization
  import opened Planner
  import Channels
  import Ids

  datatype Engine = Engine(
    runs: map<RunId, Run>,
    jobs: map<JobId, Job>,
    channels: map<ChannelId, Channel>,
    queue: seq<JobId>,
    cap: nat,
    active: map<JobId, RunId>,
    beats: map<JobId, int>
  )

  ghost function Init(cap: nat): Engine {
    Engine(map[], map[], map[], [], cap, map[], map[])
  }

  ghost predicate Live(runs: map<RunId, Run>, r: RunId) {
    r in runs && !runs[r].status.Cancelled?
  }

  ghost function RunJobs(jobs: map<JobId, Job>, r: RunId): set<JobId> {
    set j | j in jobs && jobs[j].run == r
  }

  // ---- Dependencies ----

  ghost predicate DepsDone(jobs: map<JobId, Job>, deps: seq<JobId>) {
    forall d :: d in deps ==> d in jobs && jobs[d].status.Completed?
  }

  ghost function Promotable(jobs: map<JobId, Job>, r: RunId): set<JobId> {
    set j | j in jobs && jobs[j].run == r && jobs[j].status.Pending? && DepsDone(jobs, jobs[j].deps)
  }

  ghost function Promote(jobs: map<JobId, Job>, r: RunId): map<JobId, Job> {
    map j | j in jobs :: if j in Promotable(jobs, r) then jobs[j].(status := JobStatus.Ready) else jobs[j]
  }

  // ---- The verdict on a run ----

  ghost predicate AllTerminal(jobs: map<JobId, Job>, r: RunId) {
    RunJobs(jobs, r) != {} && forall j :: j in RunJobs(jobs, r) ==> Terminal(jobs[j].status)
  }

  ghost predicate SomeFailed(jobs: map<JobId, Job>, r: RunId) {
    exists j :: j in RunJobs(jobs, r) && jobs[j].status.Failed?
  }

  ghost function Leaves(jobs: map<JobId, Job>, r: RunId): set<JobId> {
    set j | j in RunJobs(jobs, r) && forall k :: k in RunJobs(jobs, r) ==> j !in jobs[k].deps
  }

  // The outputs of a set of jobs, as a multiset: it does not depend on the
  // order in which the set is listed (OutputsWithout).
  ghost function Outputs(jobs: map<JobId, Job>, js: set<JobId>): multiset<ArtifactId>
    requires js <= jobs.Keys
  {
    if js == {} then multiset{}
    else
      var j :| j in js;
      multiset(jobs[j].outputs) + Outputs(jobs, js - {j})
  }

  lemma {:induction false} OutputsWithout(jobs: map<JobId, Job>, js: set<JobId>, j: JobId)
    requires js <= jobs.Keys && j in js
    ensures Outputs(jobs, js) == multiset(jobs[j].outputs) + Outputs(jobs, js - {j})
    decreases |js|
  {
    var c :| c in js && Outputs(jobs, js) == multiset(jobs[c].outputs) + Outputs(jobs, js - {c});
    if c != j {
      OutputsWithout(jobs, js - {c}, j);
      OutputsWithout(jobs, js - {j}, c);
      assert js - {c} - {j} == js - {j} - {c};
    }
  }

  lemma {:induction false} OutputsAgree(a: map<JobId, Job>, b: map<JobId, Job>, js: set<JobId>)
    requires js <= a.Keys && js <= b.Keys
    requires forall j :: j in js ==> a[j].outputs == b[j].outputs
    ensures Outputs(a, js) == Outputs(b, js)
    decreases |js|
  {
    if js != {} {
      var j :| j in js;
      OutputsWithout(a, js, j);
      OutputsWithout(b, js, j);
      OutputsAgree(a, b, js - {j});
    }
  }

  ghost function FinalOutputs(jobs: map<JobId, Job>, r: RunId): multiset<ArtifactId> {
    Outputs(jobs, Leaves(jobs, r))
  }

  // Some job of the run waits for j.
  ghost predicate WaitedFor(jobs: map<JobId, Job>, r: RunId, j: JobId) {
    exists k :: k in jobs && jobs[k].run == r && j in jobs[k].deps
  }

  // How often each job of the run puts artifact a among the final ones.
  ghost function Contributions(jobs: map<JobId, Job>, r: RunId, a: ArtifactId): map<JobId, nat> {
    map j | j in jobs && jobs[j].run == r :: if WaitedFor(jobs, r, j) then 0 else multiset(jobs[j].outputs)[a]
  }

  // How often each of the given jobs produces artifact a.
  ghost function Counts(jobs: map<JobId, Job>, js: set<JobId>, a: ArtifactId): map<JobId, nat>
    requires js <= jobs.Keys
  {
    map j | j in js :: multiset(jobs[j].outputs)[a]
  }

  lemma CountsWithout(jobs: map<JobId, Job>, js: set<JobId>, a: ArtifactId, j: JobId)
    requires js <= jobs.Keys && j in js
    ensures Sum(Counts(jobs, js, a)) == multiset(jobs[j].outputs)[a] + Sum(Counts(jobs, js - {j}, a))
  {
    hide Sum;
    SumWithout(Counts(jobs, js, a), j);
    assert Counts(jobs, js, a) - {j} == Counts(jobs, js - {j}, a);
  }

  lemma {:induction false} OutputsCount(jobs: map<JobId, Job>, js: set<JobId>, a: ArtifactId)
    requires js <= jobs.Keys
    ensures Outputs(jobs, js)[a] == Sum(Counts(jobs, js, a))
    decreases |js|
  {
    if js == {} {
      assert Counts(jobs, js, a) == map[];
    } else {
      hide Sum, Outputs, Counts;
      var j :| j in js;
      OutputsWithout(jobs, js, j);
      OutputsCount(jobs, js - {j}, a);
      CountsWithout(jobs, js, a, j);
    }
  }

  // The final artifacts are counted over the jobs nothing waits for.
  lemma FinalOutputsCount(jobs: map<JobId, Job>, r: RunId, a: ArtifactId)
    ensures FinalOutputs(jobs, r)[a] == Sum(Contributions(jobs, r, a))
  {
    var leaves := Leaves(jobs, r);
    var f, g := Counts(jobs, leaves, a), Contributions(jobs, r, a);
    OutputsCount(jobs, leaves, a);
    forall j | j in g ensures j in f <==> !WaitedFor(jobs, r, j) {
    }
    SumPadded(f, g);
  }

  ghost function Verdict(jobs: map<JobId, Job>, r: RunId): RunStatus {
    if SomeFailed(jobs, r) then RunStatus.Failed else RunStatus.Completed
  }

  ghost function CheckCompletion(runs: map<RunId, Run>, jobs: map<JobId, Job>, r: RunId): map<RunId, Run> {
    if r in runs && AllTerminal(jobs, r)
    then runs[r := runs[r].(status := Verdict(jobs, r), finals := Artifacts(FinalOutputs(jobs, r)))]
    else runs
  }

  // ---- The calls ----

  ghost function Submit(s: Engine, r: RunId, root: JobId, task: string): Engine {
    s.(runs := s.runs[r := Run(task, RunStatus.Pending, root, Artifacts(multiset{}))],
       jobs := s.jobs[root := NewJob(r, None, Planner, JobStatus.Ready, task, "planner", [], [], 0)],
       queue := s.queue + [root])
  }

  ghost function NextJob(s: Engine): (Engine, Option<JobId>) {
    if |s.active| >= s.cap || s.queue == [] then (s, None)
    else
      var j := s.queue[0];
      var popped := s.(queue := s.queue[1..]);
      if j in s.jobs then (popped.(active := s.active[j := s.jobs[j].run]), Some(j)) else (popped, None)
  }

  ghost function StartRun(runs: map<RunId, Run>, r: RunId): map<RunId, Run> {
    if r in runs && runs[r].status.Pending? then runs[r := runs[r].(status := RunStatus.Running)] else runs
  }

  ghost function MarkRunning(s: Engine, j: JobId, now: int): Engine {
    if j !in s.active then s
    else
      s.(jobs := if j in s.jobs
                 then s.jobs[j := s.jobs[j].(status := JobStatus.Running, attempt := s.jobs[j].attempt + 1)]
                 else s.jobs,
         beats := s.beats[j := now],
         runs := StartRun(s.runs, s.active[j]))
  }

  ghost function RecordHeartbeat(s: Engine, j: JobId, now: int): Engine {
    if j in s.active then s.(beats := s.beats[j := now]) else s
  }

  ghost function StaleJobs(s: Engine, now: int, timeout: int): set<JobId> {
    set j | j in s.active && (j in s.beats ==> now - s.beats[j] > timeout)
  }

  // The jobs map once j is Completed, before anything is promoted.
  ghost function Completing(jobs: map<JobId, Job>, j: JobId, outputs: seq<ArtifactId>): map<JobId, Job> {
    if j in jobs then jobs[j := jobs[j].(status := JobStatus.Completed, outputs := outputs)] else jobs
  }

  // What mark_completed(j) promotes, in some order.
  ghost function PromotedBy(s: Engine, j: JobId, outputs: seq<ArtifactId>): set<JobId> {
    if j in s.active then Promotable(Completing(s.jobs, j, outputs), s.active[j]) else {}
  }

  ghost function MarkCompleted(s: Engine, j: JobId, outputs: seq<ArtifactId>, promoted: seq<JobId>): Engine {
    var done := Completing(s.jobs, j, outputs);
    var freed := s.(active := s.active - {j}, beats := s.beats - {j});
    if j !in s.active then freed.(jobs := done)
    else
      var jobs := Promote(done, s.active[j]);
      freed.(jobs := jobs, queue := s.queue + promoted, runs := CheckCompletion(s.runs, jobs, s.active[j]))
  }

  ghost function Failing(job: Job, note: Note): Job {
    job.(error := Some(note),
         status := if job.attempt < job.maxAttempts then JobStatus.Ready else JobStatus.Failed)
  }

  ghost function MarkFailed(s: Engine, j: JobId, note: Note): Engine {
    var jobs := if j in s.jobs then s.jobs[j := Failing(s.jobs[j], note)] else s.jobs;
    s.(active := s.active - {j},
       beats := s.beats - {j},
       jobs := jobs,
       queue := if j in jobs && jobs[j].status.Ready? then s.queue + [j] else s.queue,
       runs := if j in s.active then CheckCompletion(s.runs, jobs, s.active[j]) else s.runs)
  }

  // The two jobs a revision creates, or None when the review asks for none.
  ghost function Revision(s: Engine, reviewer: JobId, decision: Decision, maxRevisions: nat,
                          coderId: JobId): Option<(Job, Job)>
  {
    if !decision.Revise? || reviewer !in s.jobs || s.jobs[reviewer].deps == [] then None
    else
      var rev := s.jobs[reviewer];
      if rev.deps[0] !in s.jobs || rev.round + 1 > maxRevisions then None
      else
        var coder := s.jobs[rev.deps[0]];
        Some((NewJob(rev.run, rev.parent, coder.role, JobStatus.Ready,
                     RevisedInstruction(coder.instruction, decision.feedback, rev.round + 1, maxRevisions),
                     coder.profile, coder.outputs, [], rev.round + 1),
              NewJob(rev.run, rev.parent, rev.role, JobStatus.Pending, rev.instruction,
                     rev.profile, [], [coderId], rev.round + 1)))
  }

  function RevisedInstruction(instruction: string, feedback: string, round: nat, max: nat): string {
    instruction + "\n\n--- Reviewer feedback (revision " + Ids.Decimal(round) + "/" + Ids.Decimal(max)
    + ") ---\n" + feedback
  }

  ghost function HandleReview(s: Engine, reviewer: JobId, decision: Decision, maxRevisions: nat,
                              coderId: JobId, reviewerId: JobId): Engine
  {
    match Revision(s, reviewer, decision, maxRevisions, coderId)
    case None => s
    case Some((coder, rev)) =>
      s.(jobs := s.jobs[coderId := coder][reviewerId := rev], queue := s.queue + [coderId])
  }

  // The daemon materializes an accepted plan and queues the jobs that are Ready.
  ghost function MaterializePlan(s: Engine, r: RunId, parent: JobId, plan: Plan, ids: seq<JobId>): Engine
    requires |ids| == |plan.jobs|
  {
    var m := IdMap(plan.jobs, ids);
    IdMapKeys(plan.jobs, ids);
    assert forall i :: 0 <= i < |plan.jobs| ==> plan.jobs[i].local in Locals(plan.jobs);
    var jobs := AddJobs(s.jobs, m, r, parent, plan.jobs);
    s.(jobs := jobs,
       channels := AddChannels(s.channels, m, r, plan.channels),
       queue := s.queue + Filter(Created(m, plan.jobs), j => j in jobs && jobs[j].status.Ready?))
  }

  // ---- Channels ----

  ghost predicate CanActivate(s: Engine, ch: Channel) {
    && !ch.active && !ch.closed
    && ch.run in s.active.Values
    && forall p :: p in ch.participants ==> p in s.jobs && s.jobs[p].status.Running?
  }

  ghost function ActivateChannels(s: Engine): Engine {
    s.(channels := map c | c in s.channels ::
         if CanActivate(s, s.channels[c]) then s.channels[c].(active := true) else s.channels[c])
  }

  ghost function RouteMessage(s: Engine, c: ChannelId, sender: JobId, content: string): (Engine, Channels.Action) {
    if c !in s.channels then (s, Channels.NoOp)
    else
      var (ch, action) := Channels.Route(s.channels[c], sender, content);
      (s.(channels := s.channels[c := ch]), action)
  }

  ghost function ChannelDone(s: Engine, c: ChannelId, sender: JobId): (Engine, Channels.Action) {
    if c !in s.channels then (s, Channels.NoOp)
    else
      var (ch, action) := Channels.Done(s.channels[c], sender);
      (s.(channels := s.channels[c := ch]), action)
  }

  ghost function PeerFailed(s: Engine, c: ChannelId, job: JobId): (Engine, Channels.Action) {
    if c !in s.channels then (s, Channels.NoOp)
    else
      var (ch, action) := Channels.PeerLost(s.channels[c], job);
      (s.(channels := s.channels[c := ch]), action)
  }

  ghost function ActiveChannelsOf(s: Engine, job: JobId): set<ChannelId> {
    set c | c in s.channels && s.channels[c].active && job in s.channels[c].participants
  }

  // ---- Cancelling a run ----

  ghost function FailAll(s: Engine, order: seq<JobId>, note: Note): Engine {
    if order == [] then s
    else
      var n := |order| - 1;
      MarkFailed(FailAll(s, order[..n], note), order[n], note)
  }

  // The jobs a cancellation fails.
  ghost function Unfinished(jobs: map<JobId, Job>, r: RunId): set<JobId> {
    set j | j in jobs && jobs[j].run == r && !Terminal(jobs[j].status)
  }

  ghost predicate Undecided(runs: map<RunId, Run>, r: RunId) {
    r in runs && (runs[r].status.Pending? || runs[r].status.Running?)
  }

  ghost function Foreign(jobs: map<JobId, Job>, r: RunId): JobId -> bool {
    j => !(j in jobs && jobs[j].run == r)
  }

  // Fail every unfinished job of the run, in the order the store lists them,
  // then take the run's jobs off the queue and mark it cancelled. Refused for a
  // run that is neither Pending nor Running.
  ghost function CancelRun(s: Engine, r: RunId, order: seq<JobId>): Engine {
    if !Undecided(s.runs, r) then s
    else
      var t := FailAll(s, order, CancelledByUser);
      t.(queue := Filter(t.queue, Foreign(t.jobs, r)),
         runs := if r in t.runs then t.runs[r := t.runs[r].(status := RunStatus.Cancelled)] else t.runs)
  }

  // ---- Restarting the daemon from a stored state ----

  ghost function RestartedJobs(jobs: map<JobId, Job>): map<JobId, Job> {
    map j | j in jobs :: if jobs[j].status.Running? then Failing(jobs[j], ProcessLost) else jobs[j]
  }

  ghost function ReadyJobs(jobs: map<JobId, Job>): set<JobId> {
    set j | j in jobs && jobs[j].status.Ready?
  }

  // What is kept across restarts.
  datatype Records = Records(
    runs: map<RunId, Run>,
    jobs: map<JobId, Job>,
    channels: map<ChannelId, Channel>
  )

  ghost function RecordsOf(s: Engine): Records {
    Records(s.runs, s.jobs, s.channels)
  }

  ghost function RestartedChannels(channels: map<ChannelId, Channel>): map<ChannelId, Channel> {
    map c | c in channels :: if channels[c].closed then channels[c] else channels[c].(active := false)
  }

  // The engine a daemon starts with. Jobs that were running lost their process;
  // every Ready job is queued, in the order the jobs are loaded; open channels
  // wait to be activated again.
  ghost function Restarted(stored: Records, cap: nat, queue: seq<JobId>): Engine {
    Engine(stored.runs, RestartedJobs(stored.jobs), RestartedChannels(stored.channels), queue, cap, map[], map[])
  }
}
