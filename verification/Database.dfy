/** What the daemon keeps on disk: three tables, written run by run. Every row
    is inserted or replaced on its own. */
module Database {
  import opened Types
  import opened Collections
  import opened EngineSpec
  import opened Store
  import opened Recovery

  // The rows of a table written so far.
  ghost function Rows<K(!new), V>(table: map<K, V>, done: seq<K>): map<K, V> {
    map k | k in done && k in table :: table[k]
  }

  lemma WriteRow<K(!new), V>(before: map<K, V>, table: map<K, V>, done: seq<K>, k: K)
    requires k in table
    ensures before + Rows(table, done + [k]) == (before + Rows(table, done))[k := table[k]]
  {
  }

  class Persistence {
    var runs: map<RunId, Run>
    var jobs: map<JobId, Job>
    var channels: map<ChannelId, Channel>

    constructor ()
      ensures runs == map[] && jobs == map[] && channels == map[]
    {
      runs, jobs, channels := map[], map[], map[];
    }

    ghost function Stored(): Records
      reads this
    {
      Records(runs, jobs, channels)
    }

    // The run, its jobs and its channels are written; no other row changes.
    method PersistRunState(store: RunStore, r: RunId)
      modifies this
      ensures Stored() == Written(old(Stored()), store.runs, store.jobs, store.channels, r)
    {
      if r in store.runs {
        runs := runs[r := store.runs[r]];
      }
      PersistJobs(store, r);
      PersistChannels(store, r);
    }

    method PersistJobs(store: RunStore, r: RunId)
      modifies this`jobs
      ensures jobs == old(jobs) + map j | j in store.jobs && store.jobs[j].run == r :: store.jobs[j]
    {
      var order := store.ListRunJobs(r);
      assert Rows(store.jobs, []) == map[];
      for i := 0 to |order|
        invariant jobs == old(jobs) + Rows(store.jobs, order[..i])
      {
        assert order[i] in order;
        assert order[..i + 1] == order[..i] + [order[i]];
        WriteRow(old(jobs), store.jobs, order[..i], order[i]);
        jobs := jobs[order[i] := store.jobs[order[i]]];
      }
      assert order[..|order|] == order;
      assert Rows(store.jobs, order) == map j | j in store.jobs && store.jobs[j].run == r :: store.jobs[j];
    }

    method PersistChannels(store: RunStore, r: RunId)
      modifies this`channels
      ensures channels ==
        old(channels) + map c | c in store.channels && store.channels[c].run == r :: store.channels[c]
    {
      var order := store.ListRunChannels(r);
      assert Rows(store.channels, []) == map[];
      for i := 0 to |order|
        invariant channels == old(channels) + Rows(store.channels, order[..i])
      {
        assert order[i] in order;
        assert order[..i + 1] == order[..i] + [order[i]];
        WriteRow(old(channels), store.channels, order[..i], order[i]);
        channels := channels[order[i] := store.channels[order[i]]];
      }
      assert order[..|order|] == order;
      assert Rows(store.channels, order) ==
        map c | c in store.channels && store.channels[c].run == r :: store.channels[c];
    }
  }
}
