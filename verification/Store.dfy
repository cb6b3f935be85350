/** The in-memory store: four hash tables (artifacts, which decide nothing, are
    not modelled) updated in place, and listings in whatever order a hash table
    is iterated. */
module Store {
  import opened Types
  import opened Collections
  import opened EngineSpec

  // What iterating over the keys of a hash table yields: each key once, in
  // some order nobody may rely on.
  method Iterate<K(!new, ==)>(keys: set<K>) returns (order: seq<K>)
    ensures Enumerates(order, keys)
  {
    var rest := keys;
    order := [];
    while rest != {}
      invariant rest <= keys && Distinct(order)
      invariant forall k :: k in order <==> k in keys && k !in rest
      decreases |rest|
    {
      var k :| k in rest;
      DistinctConcat(order, [k]);
      order := order + [k];
      rest := rest - {k};
    }
  }

  // The loop that keeps, in order, what satisfies a condition.
  method Retain<T(!new)>(all: seq<T>, keep: T -> bool) returns (kept: seq<T>)
    ensures kept == Filter(all, keep)
  {
    kept := [];
    for i := 0 to |all|
      invariant kept == Filter(all[..i], keep)
    {
      FilterSnoc(all, i, keep);
      if keep(all[i]) {
        kept := kept + [all[i]];
      }
    }
    assert all[..|all|] == all;
  }

  class RunStore {
    var runs: map<RunId, Run>
    var jobs: map<JobId, Job>
    var channels: map<ChannelId, Channel>

    constructor ()
      ensures runs == map[] && jobs == map[] && channels == map[]
    {
      runs, jobs, channels := map[], map[], map[];
    }

    // Creating and updating a record are the same insertion.
    method PutRun(r: RunId, run: Run)
      modifies this`runs
      ensures runs == old(runs)[r := run]
    {
      runs := runs[r := run];
    }

    method PutJob(j: JobId, job: Job)
      modifies this`jobs
      ensures jobs == old(jobs)[j := job]
    {
      jobs := jobs[j := job];
    }

    method PutChannel(c: ChannelId, channel: Channel)
      modifies this`channels
      ensures channels == old(channels)[c := channel]
    {
      channels := channels[c := channel];
    }

    method ListRunJobs(r: RunId) returns (order: seq<JobId>)
      ensures Enumerates(order, RunJobs(jobs, r))
    {
      var all := Iterate(jobs.Keys);
      var table := jobs;
      var ofRun := j => j in table && table[j].run == r;
      order := Retain(all, ofRun);
      FilterDistinct(all, ofRun);
    }

    method ListRunChannels(r: RunId) returns (order: seq<ChannelId>)
      ensures Enumerates(order, set c | c in channels && channels[c].run == r)
    {
      var all := Iterate(channels.Keys);
      var table := channels;
      var ofRun := c => c in table && table[c].run == r;
      order := Retain(all, ofRun);
      FilterDistinct(all, ofRun);
    }

    // The active channels a job takes part in,
    method ChannelsForJob(j: JobId) returns (order: seq<ChannelId>)
      ensures Enumerates(order, set c | c in channels && channels[c].active && j in channels[c].participants)
    {
      var all := Iterate(channels.Keys);
      var table := channels;
      var ofJob := c => c in table && table[c].active && j in table[c].participants;
      order := Retain(all, ofJob);
      FilterDistinct(all, ofJob);
    }

    // and all of them.
    method AllChannelsForJob(j: JobId) returns (order: seq<ChannelId>)
      ensures Enumerates(order, set c | c in channels && j in channels[c].participants)
    {
      var all := Iterate(channels.Keys);
      var table := channels;
      var ofJob := c => c in table && j in table[c].participants;
      order := Retain(all, ofJob);
      FilterDistinct(all, ofJob);
    }

    // Removing a run takes its records and nobody else's.
    method RemoveRun(r: RunId)
      modifies this
      ensures runs == old(runs) - {r}
      ensures jobs == map j | j in old(jobs) && old(jobs)[j].run != r :: old(jobs)[j]
      ensures channels == map c | c in old(channels) && old(channels)[c].run != r :: old(channels)[c]
    {
      runs := runs - {r};
      var jobIds := ListRunJobs(r);
      for i := 0 to |jobIds|
        invariant jobs == old(jobs) - (set j | j in jobIds[..i])
        invariant runs == old(runs) - {r} && channels == old(channels)
      {
        assert jobIds[..i + 1] == jobIds[..i] + [jobIds[i]];
        jobs := jobs - {jobIds[i]};
      }
      assert jobIds[..|jobIds|] == jobIds;
      var channelIds := ListRunChannels(r);
      for i := 0 to |channelIds|
        invariant channels == old(channels) - (set c | c in channelIds[..i])
        invariant runs == old(runs) - {r}
        invariant jobs == old(jobs) - (set j | j in jobIds)
      {
        assert channelIds[..i + 1] == channelIds[..i] + [channelIds[i]];
        channels := channels - {channelIds[i]};
      }
      assert channelIds[..|channelIds|] == channelIds;
    }
  }

  // Hence what is left of the store knows nothing of the run, and everything
  // there was to know of every other run.
  lemma RemovalIsolates(jobs: map<JobId, Job>, r: RunId, x: RunId)
    ensures var left := map j | j in jobs && jobs[j].run != r :: jobs[j];
      && RunJobs(left, r) == {}
      && (x != r ==> RunJobs(left, x) == RunJobs(jobs, x))
      && (x != r ==> FinalOutputs(left, x) == FinalOutputs(jobs, x) && Verdict(left, x) == Verdict(jobs, x)
                     && (AllTerminal(left, x) <==> AllTerminal(jobs, x)))
  {
    var left := map j | j in jobs && jobs[j].run != r :: jobs[j];
    if x != r {
      assert RunJobs(left, x) == RunJobs(jobs, x);
      assert Leaves(left, x) == Leaves(jobs, x);
      OutputsAgree(jobs, left, Leaves(jobs, x));
      assert SomeFailed(left, x) <==> SomeFailed(jobs, x);
    }
  }
}
