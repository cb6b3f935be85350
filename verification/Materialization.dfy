/** What `materialize_plan` makes of a plan: the specification the method in
    EngineImpl is proved against, and the theorem that the jobs and channels it
    creates are a faithful copy of the plan. */
module Materialization {
  import opened Types
  import opened Collections
  import opened Planner

  // Local id to real id; inserted in plan order, so a repeated local id keeps the last.
  function IdMap(jobs: seq<PlannedJob>, ids: seq<JobId>): map<string, JobId>
    requires |jobs| == |ids|
  {
    if jobs == [] then map[]
    else
      var n := |jobs| - 1;
      IdMap(jobs[..n], ids[..n])[jobs[n].local := ids[n]]
  }

  // Unknown local ids are dropped.
  function Translate(m: map<string, JobId>, locals: seq<string>): seq<JobId> {
    if locals == [] then []
    else if locals[0] in m then [m[locals[0]]] + Translate(m, locals[1..])
    else Translate(m, locals[1..])
  }

  function RealJob(m: map<string, JobId>, r: RunId, parent: JobId, p: PlannedJob): Job {
    var deps := Translate(m, p.deps);
    NewJob(r, Some(parent), RoleOf(p.role), if deps == [] then JobStatus.Ready else JobStatus.Pending,
           p.instruction, p.profile, [], deps, 0)
  }

  function AddJobs(store: map<JobId, Job>, m: map<string, JobId>, r: RunId, parent: JobId,
                   specs: seq<PlannedJob>): map<JobId, Job>
    requires forall i :: 0 <= i < |specs| ==> specs[i].local in m
  {
    if specs == [] then store
    else
      var n := |specs| - 1;
      AddJobs(store, m, r, parent, specs[..n])[m[specs[n].local] := RealJob(m, r, parent, specs[n])]
  }

  function RealChannel(m: map<string, JobId>, r: RunId, p: PlannedChannel): Channel {
    Channel(r, Translate(m, p.participants), p.mode, p.maxRounds, p.onPeerFailure,
            0, 0, false, false, [], p.initial)
  }

  function AddChannels(store: map<ChannelId, Channel>, m: map<string, JobId>, r: RunId,
                       specs: seq<PlannedChannel>): map<ChannelId, Channel>
  {
    if specs == [] then store
    else
      var n := |specs| - 1;
      AddChannels(store, m, r, specs[..n])[ChannelId(r, specs[n].name) := RealChannel(m, r, specs[n])]
  }

  function Created(m: map<string, JobId>, specs: seq<PlannedJob>): seq<JobId>
    requires forall i :: 0 <= i < |specs| ==> specs[i].local in m
  {
    seq(|specs|, i requires 0 <= i < |specs| => m[specs[i].local])
  }

  lemma {:induction false} IdMapKeys(jobs: seq<PlannedJob>, ids: seq<JobId>)
    requires |jobs| == |ids|
    ensures IdMap(jobs, ids).Keys == Locals(jobs)
    ensures forall l :: l in IdMap(jobs, ids) ==> IdMap(jobs, ids)[l] in ids
  {
    if jobs != [] {
      var n := |jobs| - 1;
      IdMapKeys(jobs[..n], ids[..n]);
      assert jobs == jobs[..n] + [jobs[n]] && ids == ids[..n] + [ids[n]];
      forall l ensures l in Locals(jobs) <==> l in Locals(jobs[..n]) || l == jobs[n].local {
        if l in Locals(jobs[..n]) {
          var i :| 0 <= i < n && jobs[..n][i].local == l;
          assert jobs[i].local == l;
        }
        if l in Locals(jobs) && l != jobs[n].local {
          var i :| 0 <= i < |jobs| && jobs[i].local == l;
          assert jobs[..n][i].local == l;
        }
      }
    }
  }

  ghost predicate LocalsDistinct(jobs: seq<PlannedJob>) {
    forall i, k :: 0 <= i < k < |jobs| ==> jobs[i].local != jobs[k].local
  }

  lemma {:induction false} IdMapAt(jobs: seq<PlannedJob>, ids: seq<JobId>, i: nat)
    requires |jobs| == |ids| && i < |jobs|
    requires LocalsDistinct(jobs)
    ensures jobs[i].local in IdMap(jobs, ids) && IdMap(jobs, ids)[jobs[i].local] == ids[i]
  {
    var n := |jobs| - 1;
    if i < n {
      IdMapAt(jobs[..n], ids[..n], i);
    }
  }

  lemma {:induction false} TranslateAll(m: map<string, JobId>, locals: seq<string>)
    requires forall l :: l in locals ==> l in m
    ensures |Translate(m, locals)| == |locals|
    ensures forall k :: 0 <= k < |locals| ==> Translate(m, locals)[k] == m[locals[k]]
  {
    if locals != [] {
      TranslateAll(m, locals[1..]);
    }
  }

  lemma {:induction false} AddJobsKeys(store: map<JobId, Job>, m: map<string, JobId>, r: RunId, parent: JobId,
                                       specs: seq<PlannedJob>, ids: seq<JobId>)
    requires |specs| == |ids|
    requires forall i :: 0 <= i < |specs| ==> specs[i].local in m && m[specs[i].local] == ids[i]
    ensures var after := AddJobs(store, m, r, parent, specs);
      && after.Keys == store.Keys + (set id | id in ids)
      && (forall j :: j in store && j !in ids ==> after[j] == store[j])
  {
    hide RealJob;
    if specs != [] {
      var n := |specs| - 1;
      AddJobsKeys(store, m, r, parent, specs[..n], ids[..n]);
      assert ids == ids[..n] + [ids[n]];
    }
  }

  lemma {:induction false} AddJobsAt(store: map<JobId, Job>, m: map<string, JobId>, r: RunId, parent: JobId,
                                     specs: seq<PlannedJob>, ids: seq<JobId>, i: nat)
    requires |specs| == |ids| && Distinct(ids) && i < |ids|
    requires forall i :: 0 <= i < |specs| ==> specs[i].local in m && m[specs[i].local] == ids[i]
    ensures var after := AddJobs(store, m, r, parent, specs);
      ids[i] in after && after[ids[i]] == RealJob(m, r, parent, specs[i])
  {
    hide RealJob;
    var n := |specs| - 1;
    if i < n {
      AddJobsAt(store, m, r, parent, specs[..n], ids[..n], i);
      assert ids[i] != ids[n];
    }
  }

  ghost predicate NamesDistinct(specs: seq<PlannedChannel>) {
    forall i, k :: 0 <= i < k < |specs| ==> specs[i].name != specs[k].name
  }

  ghost predicate Named(r: RunId, specs: seq<PlannedChannel>, c: ChannelId) {
    c.run == r && exists i :: 0 <= i < |specs| && specs[i].name == c.name
  }

  lemma {:induction false} AddChannelsKeys(store: map<ChannelId, Channel>, m: map<string, JobId>, r: RunId,
                                           specs: seq<PlannedChannel>)
    ensures forall c :: c in AddChannels(store, m, r, specs) <==> c in store || Named(r, specs, c)
    ensures forall c :: c in store && !Named(r, specs, c) ==> AddChannels(store, m, r, specs)[c] == store[c]
  {
    if specs != [] {
      var n := |specs| - 1;
      AddChannelsKeys(store, m, r, specs[..n]);
      forall c ensures Named(r, specs, c) <==> Named(r, specs[..n], c) || c == ChannelId(r, specs[n].name) {
        NamedSnoc(r, specs, c);
      }
    }
  }

  lemma NamedSnoc(r: RunId, specs: seq<PlannedChannel>, c: ChannelId)
    requires specs != []
    ensures Named(r, specs, c) <==> Named(r, specs[..|specs| - 1], c) || c == ChannelId(r, specs[|specs| - 1].name)
  {
    var front := specs[..|specs| - 1];
    if Named(r, specs, c) {
      var i :| 0 <= i < |specs| && specs[i].name == c.name;
      assert i < |front| ==> front[i].name == c.name;
    }
    if Named(r, front, c) {
      var i :| 0 <= i < |front| && front[i].name == c.name;
      assert specs[i].name == c.name;
    }
  }

  lemma {:induction false} AddChannelsAt(store: map<ChannelId, Channel>, m: map<string, JobId>, r: RunId,
                                         specs: seq<PlannedChannel>, i: nat)
    requires NamesDistinct(specs) && i < |specs|
    ensures ChannelId(r, specs[i].name) in AddChannels(store, m, r, specs)
    ensures AddChannels(store, m, r, specs)[ChannelId(r, specs[i].name)] == RealChannel(m, r, specs[i])
  {
    var n := |specs| - 1;
    if i < n {
      AddChannelsAt(store, m, r, specs[..n], i);
    }
  }

  // ---- A faithful copy ----

  // The real id of a local one: the id drawn for the planned job of that name.
  ghost predicate Stands(plan: Plan, ids: seq<JobId>, local: string, id: JobId)
    requires |ids| == |plan.jobs|
  {
    exists n :: 0 <= n < |ids| && plan.jobs[n].local == local && ids[n] == id
  }

  // reals is locals, element by element, in real ids.
  ghost predicate Image(plan: Plan, ids: seq<JobId>, locals: seq<string>, reals: seq<JobId>)
    requires |ids| == |plan.jobs|
  {
    |reals| == |locals| && forall k :: 0 <= k < |locals| ==> Stands(plan, ids, locals[k], reals[k])
  }

  ghost predicate JobCopies(plan: Plan, ids: seq<JobId>, r: RunId, parent: JobId, spec: PlannedJob, job: Job)
    requires |ids| == |plan.jobs|
  {
    && job == NewJob(r, Some(parent), RoleOf(spec.role),
                     if spec.deps == [] then JobStatus.Ready else JobStatus.Pending,
                     spec.instruction, spec.profile, [], job.deps, 0)
    && Image(plan, ids, spec.deps, job.deps)
  }

  ghost predicate ChannelCopies(plan: Plan, ids: seq<JobId>, r: RunId, spec: PlannedChannel, ch: Channel)
    requires |ids| == |plan.jobs|
  {
    && ch == Channel(r, ch.participants, spec.mode, spec.maxRounds, spec.onPeerFailure,
                     0, 0, false, false, [], spec.initial)
    && Image(plan, ids, spec.participants, ch.participants)
  }

  ghost predicate FreshIds(plan: Plan, ids: seq<JobId>, store: map<JobId, Job>) {
    |ids| == |plan.jobs| && Distinct(ids) && forall id :: id in ids ==> id !in store
  }

  lemma TranslateIsImage(plan: Plan, ids: seq<JobId>, locals: seq<string>)
    requires WellFormed(plan) && |ids| == |plan.jobs|
    requires forall l :: l in locals ==> l in Locals(plan.jobs)
    ensures Image(plan, ids, locals, Translate(IdMap(plan.jobs, ids), locals))
  {
    var m := IdMap(plan.jobs, ids);
    IdMapKeys(plan.jobs, ids);
    TranslateAll(m, locals);
    forall k | 0 <= k < |locals|
      ensures Stands(plan, ids, locals[k], Translate(m, locals)[k])
    {
      assert locals[k] in Locals(plan.jobs);
      var n :| 0 <= n < |plan.jobs| && plan.jobs[n].local == locals[k];
      IdMapAt(plan.jobs, ids, n);
    }
  }

  lemma RealJobCopies(plan: Plan, ids: seq<JobId>, r: RunId, parent: JobId, spec: PlannedJob)
    requires WellFormed(plan) && |ids| == |plan.jobs| && spec in plan.jobs
    ensures JobCopies(plan, ids, r, parent, spec, RealJob(IdMap(plan.jobs, ids), r, parent, spec))
  {
    assert JobOk(Locals(plan.jobs), spec);
    TranslateIsImage(plan, ids, spec.deps);
  }

  // The jobs created for an accepted plan are a copy of it: one fresh job per
  // planned job, edge for edge, Ready exactly where nothing is waited for, and
  // no other record touched.
  lemma PlanJobsPreserved(plan: Plan, ids: seq<JobId>, store: map<JobId, Job>, r: RunId, parent: JobId)
    requires WellFormed(plan) && FreshIds(plan, ids, store)
    ensures forall i :: 0 <= i < |plan.jobs| ==> plan.jobs[i].local in IdMap(plan.jobs, ids)
    ensures Created(IdMap(plan.jobs, ids), plan.jobs) == ids
    ensures var after := AddJobs(store, IdMap(plan.jobs, ids), r, parent, plan.jobs);
      && after.Keys == store.Keys + (set id | id in ids)
      && (forall j :: j in store ==> after[j] == store[j])
      && (forall i :: 0 <= i < |ids| ==> JobCopies(plan, ids, r, parent, plan.jobs[i], after[ids[i]]))
  {
    hide RealJob, AddJobs, JobOk, JobCopies;
    var m := IdMap(plan.jobs, ids);
    IdMapKeys(plan.jobs, ids);
    forall i | 0 <= i < |ids| ensures plan.jobs[i].local in m && m[plan.jobs[i].local] == ids[i] {
      IdMapAt(plan.jobs, ids, i);
    }
    assert Created(m, plan.jobs) == ids;
    AddJobsKeys(store, m, r, parent, plan.jobs, ids);
    forall i | 0 <= i < |ids|
      ensures JobCopies(plan, ids, r, parent, plan.jobs[i], AddJobs(store, m, r, parent, plan.jobs)[ids[i]])
    {
      AddJobsAt(store, m, r, parent, plan.jobs, ids, i);
      RealJobCopies(plan, ids, r, parent, plan.jobs[i]);
    }
  }

  // What becomes of one planned job: who plans and who reviews is decided by the
  // name of its role; it starts from nothing, has never been attempted, and may
  // be attempted three times.
  lemma PlannedJobBecomes(plan: Plan, ids: seq<JobId>, store: map<JobId, Job>, r: RunId, parent: JobId, i: nat)
    requires WellFormed(plan) && FreshIds(plan, ids, store) && i < |ids|
    requires forall k :: 0 <= k < |plan.jobs| ==> plan.jobs[k].local in IdMap(plan.jobs, ids)
    ensures ids[i] in AddJobs(store, IdMap(plan.jobs, ids), r, parent, plan.jobs)
    ensures var b, p := AddJobs(store, IdMap(plan.jobs, ids), r, parent, plan.jobs)[ids[i]], plan.jobs[i];
      && (b.role.Planner? <==> p.role == "planner") && (b.role.Reviewer? <==> p.role == "reviewer")
      && (b.role.Worker? ==> b.role == Worker(p.role))
      && b.run == r && b.parent == Some(parent) && b.instruction == p.instruction && b.profile == p.profile
      && (if p.deps == [] then b.status.Ready? else b.status.Pending?)
      && b.inputs == [] && b.outputs == [] && b.error == None && b.attempt == 0 && b.maxAttempts == 3 && b.round == 0
  {
    hide AddJobs, WellFormed, IdMap, Image;
    PlanJobsPreserved(plan, ids, store, r, parent);
  }

  // An image keeps exactly the references of the plan: an edge, or a seat at a
  // channel, is there if and only if the plan has it.
  lemma ImageEdges(plan: Plan, ids: seq<JobId>, locals: seq<string>, reals: seq<JobId>)
    requires |ids| == |plan.jobs| && LocalsDistinct(plan.jobs) && Distinct(ids)
    requires Image(plan, ids, locals, reals)
    ensures forall n :: 0 <= n < |ids| ==> (ids[n] in reals <==> plan.jobs[n].local in locals)
    ensures forall x :: x in reals ==> x in ids
  {
    forall x | x in reals ensures x in ids {
      var k :| 0 <= k < |reals| && reals[k] == x;
      assert Stands(plan, ids, locals[k], reals[k]);
    }
    forall n | 0 <= n < |ids| ensures ids[n] in reals <==> plan.jobs[n].local in locals {
      if ids[n] in reals {
        var k :| 0 <= k < |reals| && reals[k] == ids[n];
        assert Stands(plan, ids, locals[k], reals[k]);
      }
      if plan.jobs[n].local in locals {
        var k :| 0 <= k < |locals| && locals[k] == plan.jobs[n].local;
        assert Stands(plan, ids, locals[k], reals[k]);
      }
    }
  }

  // Its channels keep their participants, in order and number, and everything
  // else the plan says of them; channels under other names are untouched.
  lemma PlanChannelsPreserved(plan: Plan, ids: seq<JobId>, store: map<ChannelId, Channel>, r: RunId)
    requires WellFormed(plan) && |ids| == |plan.jobs|
    ensures var after := AddChannels(store, IdMap(plan.jobs, ids), r, plan.channels);
      && (forall c :: c in after <==> c in store || Named(r, plan.channels, c))
      && (forall c :: c in store && !Named(r, plan.channels, c) ==> after[c] == store[c])
      && (forall i :: 0 <= i < |plan.channels| ==>
            && ChannelId(r, plan.channels[i].name) in after
            && ChannelCopies(plan, ids, r, plan.channels[i], after[ChannelId(r, plan.channels[i].name)]))
  {
    var m := IdMap(plan.jobs, ids);
    AddChannelsKeys(store, m, r, plan.channels);
    var after := AddChannels(store, m, r, plan.channels);
    forall i | 0 <= i < |plan.channels|
      ensures ChannelId(r, plan.channels[i].name) in after
      ensures ChannelCopies(plan, ids, r, plan.channels[i], after[ChannelId(r, plan.channels[i].name)])
    {
      AddChannelsAt(store, m, r, plan.channels, i);
      TranslateIsImage(plan, ids, plan.channels[i].participants);
    }
  }

  // Creating a plan's channels leaves every existing channel alone exactly
  // when no planned name is taken in the run (or is taken by a channel equal to
  // the new one). A second plan in one run can therefore overwrite a channel.
  lemma ExistingChannelsKeptIff(plan: Plan, ids: seq<JobId>, store: map<ChannelId, Channel>, r: RunId)
    requires WellFormed(plan) && |ids| == |plan.jobs|
    ensures var m := IdMap(plan.jobs, ids);
      var after := AddChannels(store, m, r, plan.channels);
      (forall c :: c in store ==> c in after && after[c] == store[c])
      <==>
      (forall i :: 0 <= i < |plan.channels| && ChannelId(r, plan.channels[i].name) in store ==>
         store[ChannelId(r, plan.channels[i].name)] == RealChannel(m, r, plan.channels[i]))
  {
    var m := IdMap(plan.jobs, ids);
    AddChannelsKeys(store, m, r, plan.channels);
    forall i | 0 <= i < |plan.channels|
      ensures ChannelId(r, plan.channels[i].name) in AddChannels(store, m, r, plan.channels)
      ensures AddChannels(store, m, r, plan.channels)[ChannelId(r, plan.channels[i].name)]
           == RealChannel(m, r, plan.channels[i])
    {
      AddChannelsAt(store, m, r, plan.channels, i);
    }
  }
}
