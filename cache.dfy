/**
 * The in-memory job cache of the scraping pipeline: the last batch of jobs per source, and a
 * chronological log of scraping runs that keeps only the most recent entries.
 */
module Cache {
  import opened Common
  import opened OrderedMaps
  import opened Schema

  datatype CacheEntry = CacheEntry(jobs: seq<InsertJob>, timestamp: Millis, source: string)

  datatype LogStatus = Success | Failed

  datatype ScrapingLog = ScrapingLog(
    timestamp: Millis, sources: seq<string>, jobsAdded: int, status: LogStatus, error: Option<string>)

  /** One value of `getCacheStats()`; `lastUpdated` is the entry's instant (formatting left out). */
  datatype SourceStats = SourceStats(jobCount: nat, lastUpdated: Millis)

  const MaxLogs: nat := 50

  /** `s.slice(-n)` applied only when `s` is longer than `n`. */
  function KeepLast<T>(s: seq<T>, n: nat): (r: seq<T>)
    ensures |r| == if |s| <= n then |s| else n
    ensures r == s[|s| - |r|..]
  {
    if |s| > n then s[|s| - n..] else s
  }

  /**
   * Appending to a capped log keeps the previous `n - 1` most recent entries, in order, and
   * puts the new entry last.
   */
  lemma KeepLastAppend<T>(s: seq<T>, x: T, n: nat)
    requires n > 0
    ensures KeepLast(s + [x], n) == KeepLast(s, n - 1) + [x]
  {
    var r := KeepLast(s + [x], n);
    var q := KeepLast(s, n - 1);
    assert |r| == |q| + 1;
    forall i | 0 <= i < |r|
      ensures r[i] == (q + [x])[i]
    {
      if i < |q| {
        assert r[i] == (s + [x])[|s| + 1 - |r| + i];
      }
    }
  }

  /**
   * Capping after every append is the same as capping once: the stored log is always the
   * last `n` entries of the whole history.
   */
  lemma KeepLastOfCapped<T>(s: seq<T>, x: T, n: nat)
    requires n > 0
    ensures KeepLast(KeepLast(s, n) + [x], n) == KeepLast(s + [x], n)
  {
    KeepLastAppend(KeepLast(s, n), x, n);
    KeepLastAppend(s, x, n);
    var k := KeepLast(s, n);
    assert KeepLast(k, n - 1) == KeepLast(s, n - 1);
  }

  /** The entries' job lists concatenated in key order, as `forEach` with `push(...)` builds it. */
  function JobsInOrder(keys: seq<string>, m: map<string, CacheEntry>): seq<InsertJob>
    requires forall k :: k in keys ==> k in m
  {
    if keys == [] then [] else JobsInOrder(keys[..|keys| - 1], m) + m[keys[|keys| - 1]].jobs
  }

  /** The sum of the entries' job counts. */
  function CountInOrder(keys: seq<string>, m: map<string, CacheEntry>): nat
    requires forall k :: k in keys ==> k in m
  {
    if keys == [] then 0 else CountInOrder(keys[..|keys| - 1], m) + |m[keys[|keys| - 1]].jobs|
  }

  /** The concatenation is as long as the per-source counts add up to. */
  lemma {:induction false} JobsInOrderLength(keys: seq<string>, m: map<string, CacheEntry>)
    requires forall k :: k in keys ==> k in m
    ensures |JobsInOrder(keys, m)| == CountInOrder(keys, m)
  {
    if keys != [] {
      JobsInOrderLength(keys[..|keys| - 1], m);
    }
  }

  /** Every job of every listed entry occurs in the concatenation. */
  lemma {:induction false} JobsInOrderContains(keys: seq<string>, m: map<string, CacheEntry>, k: string, j: InsertJob)
    requires forall k :: k in keys ==> k in m
    requires k in keys && j in m[k].jobs
    ensures j in JobsInOrder(keys, m)
  {
    var last := keys[|keys| - 1];
    if k != last {
      assert k in keys[..|keys| - 1] by {
        var i :| 0 <= i < |keys| && keys[i] == k;
        assert i < |keys| - 1;
        assert keys[..|keys| - 1][i] == k;
      }
      JobsInOrderContains(keys[..|keys| - 1], m, k, j);
    }
  }

  /** Changing the entry of a key that is not listed changes nothing. */
  lemma {:induction false} JobsInOrderFrame(keys: seq<string>, m: map<string, CacheEntry>, k: string, e: CacheEntry)
    requires forall k :: k in keys ==> k in m
    requires k !in keys
    ensures JobsInOrder(keys, m[k := e]) == JobsInOrder(keys, m)
  {
    if keys != [] {
      var front := keys[..|keys| - 1];
      assert k !in front by {
        forall i | 0 <= i < |front| ensures front[i] != k {
          assert front[i] == keys[i];
        }
      }
      JobsInOrderFrame(keys[..|keys| - 1], m, k, e);
    }
  }

  /** What `getJobs(source)` returns; an absent or empty source name means every source. */
  function CachedJobs(om: OMap<CacheEntry>, source: Option<string>): seq<InsertJob>
    requires om.Valid()
  {
    if source.None? || source.value == "" then JobsInOrder(om.keys, om.m)
    else match om.Get(source.value)
      case Some(e) => e.jobs
      case None => []
  }

  /**
   * After `addJobs(s, js)`, `getJobs(s)` is exactly `js` (last write wins), every other
   * named source reads as before, and a source that is not cached reads as empty.
   */
  lemma CachedJobsAfterAdd(om: OMap<CacheEntry>, s: string, jobs: seq<InsertJob>, now: Millis, other: string)
    requires om.Valid() && s != ""
    ensures CachedJobs(om.Set(s, CacheEntry(jobs, now, s)), Some(s)) == jobs
    ensures other != s && other != "" ==>
      CachedJobs(om.Set(s, CacheEntry(jobs, now, s)), Some(other)) == CachedJobs(om, Some(other))
    ensures other != "" && other !in om.m ==> CachedJobs(om, Some(other)) == []
  {
  }

  /** Caching a source for the first time appends its jobs to the all-sources list. */
  lemma AddNewSourceAppends(om: OMap<CacheEntry>, s: string, jobs: seq<InsertJob>, now: Millis)
    requires om.Valid() && s !in om.m
    ensures CachedJobs(om.Set(s, CacheEntry(jobs, now, s)), None) == CachedJobs(om, None) + jobs
  {
    var om' := om.Set(s, CacheEntry(jobs, now, s));
    assert om'.keys[..|om'.keys| - 1] == om.keys;
    JobsInOrderFrame(om.keys, om.m, s, CacheEntry(jobs, now, s));
  }

  class JobCache {
    var cache: OMap<CacheEntry>
    var logs: seq<ScrapingLog>

    ghost predicate Valid()
      reads this
    {
      cache.Valid() && |logs| <= MaxLogs
    }

    constructor()
      ensures Valid()
      ensures cache == Empty() && logs == []
    {
      cache := Empty();
      logs := [];
    }

    /** `addJobs`: replaces the source's entry, stamped with the current instant. */
    method AddJobs(source: string, jobs: seq<InsertJob>, now: Millis)
      requires Valid()
      modifies this
      ensures Valid()
      ensures cache == old(cache).Set(source, CacheEntry(jobs, now, source))
      ensures logs == old(logs)
    {
      cache := cache.Set(source, CacheEntry(jobs, now, source));
    }

    /** `getJobs`. */
    method GetJobs(source: Option<string>) returns (r: seq<InsertJob>)
      requires Valid()
      ensures r == CachedJobs(cache, source)
      ensures source.None? ==> |r| == CountInOrder(cache.keys, cache.m)
    {
      if source.None? || source.value == "" {
        r := [];
        for i := 0 to |cache.keys|
          invariant r == JobsInOrder(cache.keys[..i], cache.m)
        {
          assert cache.keys[..i + 1][..i] == cache.keys[..i];
          r := r + cache.m[cache.keys[i]].jobs;
        }
        assert cache.keys[..|cache.keys|] == cache.keys;
        JobsInOrderLength(cache.keys, cache.m);
      } else {
        match cache.Get(source.value)
        case Some(e) => r := e.jobs;
        case None => r := [];
      }
    }

    /** `getCacheStats`: one entry per cached source with its job count and timestamp. */
    method GetCacheStats() returns (stats: map<string, SourceStats>)
      requires Valid()
      ensures stats.Keys == cache.m.Keys
      ensures forall k :: k in stats ==> stats[k] == SourceStats(|cache.m[k].jobs|, cache.m[k].timestamp)
    {
      stats := map[];
      for i := 0 to |cache.keys|
        invariant forall k :: k in stats <==> k in cache.keys[..i]
        invariant forall k :: k in stats ==> k in cache.m && stats[k] == SourceStats(|cache.m[k].jobs|, cache.m[k].timestamp)
      {
        var k := cache.keys[i];
        assert cache.keys[..i + 1] == cache.keys[..i] + [k];
        stats := stats[k := SourceStats(|cache.m[k].jobs|, cache.m[k].timestamp)];
      }
      assert cache.keys[..|cache.keys|] == cache.keys;
    }

    /** `addLog`: appends a log entry, then keeps only the last 50. */
    method AddLog(sources: seq<string>, jobsAdded: int, status: LogStatus, error: Option<string>, now: Millis)
      requires Valid()
      modifies this
      ensures Valid()
      ensures logs == KeepLast(old(logs) + [ScrapingLog(now, sources, jobsAdded, status, error)], MaxLogs)
      ensures cache == old(cache)
    {
      logs := logs + [ScrapingLog(now, sources, jobsAdded, status, error)];
      if |logs| > MaxLogs {
        logs := logs[|logs| - MaxLogs..];
      }
    }

    /** `getLogs`. */
    method GetLogs() returns (r: seq<ScrapingLog>)
      requires Valid()
      ensures r == logs && |r| <= MaxLogs
    {
      r := logs;
    }

    /** `clear`: empties the job map; the log stays. */
    method Clear()
      requires Valid()
      modifies this
      ensures Valid()
      ensures cache == Empty() && logs == old(logs)
    {
      cache := Empty();
    }
  }
}
