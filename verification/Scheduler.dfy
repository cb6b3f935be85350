/** Promotion and the verdict, as the loops over hash tables that they are. */
module Scheduler {
  import opened Types
  import opened Collections
  import opened EngineSpec
  import opened Store

  // Whether everything a job depends on is Completed.
  method AllComplete(store: RunStore, deps: seq<JobId>) returns (yes: bool)
    ensures yes <==> DepsDone(store.jobs, deps)
  {
    for i := 0 to |deps|
      invariant forall d :: d in deps[..i] ==> d in store.jobs && store.jobs[d].status.Completed?
    {
      assert deps[..i + 1] == deps[..i] + [deps[i]];
      if deps[i] !in store.jobs || !store.jobs[deps[i]].status.Completed? {
        return false;
      }
    }
    assert deps[..|deps|] == deps;
    yes := true;
  }

  // Promotion does not interfere with itself: a job that has just become Ready
  // is no more Completed than it was.
  ghost predicate PartlyPromoted(before: map<JobId, Job>, now: map<JobId, Job>, r: RunId, done: seq<JobId>) {
    && now.Keys == before.Keys
    && forall j :: j in before ==>
         now[j] == (if j in done && j in Promotable(before, r) then before[j].(status := JobStatus.Ready) else before[j])
  }

  lemma SameDeps(before: map<JobId, Job>, now: map<JobId, Job>, r: RunId, done: seq<JobId>, deps: seq<JobId>)
    requires PartlyPromoted(before, now, r, done)
    ensures DepsDone(now, deps) <==> DepsDone(before, deps)
  {
  }

  lemma PromoteNext(before: map<JobId, Job>, now: map<JobId, Job>, r: RunId, done: seq<JobId>, j: JobId)
    requires PartlyPromoted(before, now, r, done) && j !in done && j in before && before[j].run == r
    ensures now[j] == before[j]
    ensures j in Promotable(before, r) <==> before[j].status.Pending? && DepsDone(now, before[j].deps)
    ensures var next := if j in Promotable(before, r) then now[j := now[j].(status := JobStatus.Ready)] else now;
      PartlyPromoted(before, next, r, done + [j])
  {
    SameDeps(before, now, r, done, before[j].deps);
  }

  method PromoteUnblockedJobs(store: RunStore, r: RunId) returns (promoted: seq<JobId>)
    modifies store`jobs
    ensures store.jobs == Promote(old(store.jobs), r)
    ensures Enumerates(promoted, Promotable(old(store.jobs), r))
  {
    hide DepsDone;
    ghost var before := store.jobs;
    var order := store.ListRunJobs(r);
    promoted := [];
    for i := 0 to |order|
      invariant PartlyPromoted(before, store.jobs, r, order[..i])
      invariant Distinct(promoted)
      invariant forall j :: j in promoted <==> j in order[..i] && j in Promotable(before, r)
    {
      var j := order[i];
      assert order[..i + 1] == order[..i] + [j];
      assert j in order && j !in order[..i];
      PromoteNext(before, store.jobs, r, order[..i], j);
      if store.jobs[j].status.Pending? {
        var unblocked := AllComplete(store, store.jobs[j].deps);
        if unblocked {
          store.PutJob(j, store.jobs[j].(status := JobStatus.Ready));
          DistinctConcat(promoted, [j]);
          promoted := promoted + [j];
        }
      }
    }
    assert order[..|order|] == order;
    assert store.jobs == Promote(before, r);
  }

  // Is anything unfinished, did anything fail, and what does anything wait for?
  method Survey(store: RunStore, order: seq<JobId>)
    returns (unfinished: bool, failed: bool, targets: set<JobId>)
    requires forall j :: j in order ==> j in store.jobs
    ensures unfinished <==> exists j :: j in order && !Terminal(store.jobs[j].status)
    ensures failed <==> exists j :: j in order && store.jobs[j].status.Failed?
    ensures forall d :: d in targets <==> exists j :: j in order && d in store.jobs[j].deps
  {
    unfinished, failed, targets := false, false, {};
    for i := 0 to |order|
      invariant unfinished <==> exists k :: 0 <= k < i && !Terminal(store.jobs[order[k]].status)
      invariant failed <==> exists k :: 0 <= k < i && store.jobs[order[k]].status.Failed?
      invariant forall d :: d in targets <==> exists k :: 0 <= k < i && d in store.jobs[order[k]].deps
    {
      var b := store.jobs[order[i]];
      if !Terminal(b.status) { unfinished := true; }
      if b.status.Failed? { failed := true; }
      targets := targets + set d | d in b.deps;
    }
  }

  // The outputs of the jobs nothing waits for, in the order of the listing.
  method LeafArtifacts(store: RunStore, order: seq<JobId>, targets: set<JobId>) returns (artifacts: seq<ArtifactId>)
    requires Distinct(order) && forall j :: j in order ==> j in store.jobs
    ensures multiset(artifacts) == Outputs(store.jobs, set j | j in order && j !in targets)
  {
    artifacts := [];
    ghost var seen: set<JobId> := {};
    for i := 0 to |order|
      invariant seen == set j | j in order[..i] && j !in targets
      invariant multiset(artifacts) == Outputs(store.jobs, seen)
    {
      var j := order[i];
      assert order[..i + 1] == order[..i] + [j];
      assert j !in seen;
      if j !in targets {
        OutputsWithout(store.jobs, seen + {j}, j);
        assert seen + {j} - {j} == seen;
        artifacts := artifacts + store.jobs[j].outputs;
        seen := seen + {j};
      }
    }
    assert order[..|order|] == order;
    assert seen == set j | j in order && j !in targets;
  }

  // The verdict, once everything has finished. The final artifacts come in the
  // order of the listing; as a multiset they do not depend on it.
  method CheckRunCompletion(store: RunStore, r: RunId) returns (done: bool)
    modifies store`runs
    ensures store.runs == CheckCompletion(old(store.runs), store.jobs, r)
    ensures done <==> AllTerminal(store.jobs, r)
    ensures done && r in old(store.runs) ==>
      && (store.runs[r].status.Failed? <==> exists j :: j in store.jobs && store.jobs[j].run == r && store.jobs[j].status.Failed?)
      && (!store.runs[r].status.Failed? ==> store.runs[r].status.Completed?)
      && forall a :: store.runs[r].finals.bag[a] == Sum(Contributions(store.jobs, r, a))
  {
    var order := store.ListRunJobs(r);
    if order == [] {
      assert RunJobs(store.jobs, r) == {};
      return false;
    }
    assert order[0] in RunJobs(store.jobs, r);
    var unfinished, failed, targets := Survey(store, order);
    if unfinished {
      return false;
    }
    var artifacts := LeafArtifacts(store, order, targets);
    assert (set j | j in order && j !in targets) == Leaves(store.jobs, r);
    assert failed <==> SomeFailed(store.jobs, r);
    if r in store.runs {
      var run := store.runs[r].(status := if failed then RunStatus.Failed else RunStatus.Completed,
                                finals := Artifacts(multiset(artifacts)));
      store.PutRun(r, run);
    }
    done := true;
    forall a ensures FinalOutputs(store.jobs, r)[a] == Sum(Contributions(store.jobs, r, a)) {
      FinalOutputsCount(store.jobs, r, a);
    }
    assert failed <==> exists j :: j in store.jobs && store.jobs[j].run == r && store.jobs[j].status.Failed?;
  }
}
