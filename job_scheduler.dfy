/**
 * The round-robin scraping scheduler: every run takes the next five sources of the registry,
 * checks robots.txt, fetches the page with retries, lets the AI extract jobs, caches them and
 * persists them one by one, then advances the cursor and logs the run.
 */
module JobScheduler {
  import opened Common
  import opened Strings
  import opened Schema
  import opened AiExtraction
  import opened Cache
  import OrderedMaps
  import Dates
  import Seqs

  datatype Source = Source(name: string, baseUrl: string, category: string)

  const AllSources: seq<Source> := [
    Source("UPSC", "https://www.upsc.gov.in", "Administrative / Civil Services"),
    Source("SSC", "https://www.ssc.nic.in", "Central Government"),
    Source("RRB", "https://www.rrbcdg.gov.in", "Railways"),
    Source("IBPS", "https://www.ibps.in", "Banking"),
    Source("RBI", "https://opportunities.rbi.org.in", "Banking"),
    Source("SBI", "https://sbi.co.in/careers", "Banking"),
    Source("India Post", "https://indiapostgdsonline.gov.in", "Central Government"),
    Source("DRDO", "https://www.drdo.gov.in", "Defence"),
    Source("ISRO", "https://www.isro.gov.in/Careers.html", "Defence"),
    Source("BARC", "https://recruit.barc.gov.in", "Defence"),
    Source("AIIMS", "https://www.aiimsexams.ac.in", "Health / Medical"),
    Source("ESIC", "https://www.esic.nic.in", "Health / Medical"),
    Source("Coal India", "https://coalindia.in/en-us/careers", "Public Sector Undertaking (PSU)"),
    Source("BSNL", "https://www.bsnl.co.in/opportunities", "Public Sector Undertaking (PSU)"),
    Source("LIC", "https://www.licindia.in/careers", "Public Sector Undertaking (PSU)")
  ]

  /** Every source's category is one of the job categories the application knows. */
  lemma SourceCategoriesAreJobCategories()
    ensures forall i :: 0 <= i < |AllSources| ==> AllSources[i].category in JobCategories
  {
  }

  // ---------------------------------------------------------------- robots.txt

  /** The fetch of `/robots.txt`: a network error, a non-OK status, or an OK body. */
  datatype RobotsResponse = RobotsUnreachable | RobotsNotOk | RobotsOk(body: string)

  /**
   * The robots parser's `isAllowed(baseUrl, "Googlebot")`; `NoVerdict` is its `undefined`,
   * and also stands for a parser that throws.
   */
  datatype RobotsVerdict = Allowed | Disallowed | NoVerdict

  /** `canScrape`: fail open, blocking only on an explicit `false` from the parser. */
  function CanScrape(r: RobotsResponse, baseUrl: string, isAllowed: (string, string) -> RobotsVerdict): (b: bool)
    ensures !b <==> r.RobotsOk? && isAllowed(baseUrl, r.body) == Disallowed
  {
    match r
    case RobotsUnreachable => true
    case RobotsNotOk => true
    case RobotsOk(body) => isAllowed(baseUrl, body) != Disallowed
  }

  // ---------------------------------------------------------------- fetch with retry

  /** One fetch attempt: a non-OK status, an OK response with its body, or a thrown error. */
  datatype FetchOutcome = HttpNotOk(status: int) | HttpBody(text: string) | FetchThrew

  /** The attempt produced a usable page. */
  predicate Delivered(o: FetchOutcome) {
    o.HttpBody? && o.text != ""
  }

  const MaxRetries: int := 3
  const InitialDelay: int := 2000

  /** The first attempt at or after `from` that delivers a page, if one does before `maxRetries`. */
  function FirstDelivered(url: string, attempt: (string, nat) -> FetchOutcome, from: nat, maxRetries: int): (r: Option<nat>)
    ensures r.Some? ==>
      && from <= r.value < maxRetries && Delivered(attempt(url, r.value))
      && forall k :: from <= k < r.value ==> !Delivered(attempt(url, k))
    ensures r.None? ==> forall k :: from <= k < maxRetries ==> !Delivered(attempt(url, k))
    decreases maxRetries - from
  {
    if from >= maxRetries then None
    else if Delivered(attempt(url, from)) then Some(from)
    else FirstDelivered(url, attempt, from + 1, maxRetries)
  }

  /** The page `fetchWithRetry` returns, or `None` for its `null`. */
  function Fetched(url: string, attempt: (string, nat) -> FetchOutcome, maxRetries: int): (r: Option<string>)
    ensures r.Some? ==> r.value != ""
    ensures r.None? <==> forall k :: 0 <= k < maxRetries ==> !Delivered(attempt(url, k))
  {
    match FirstDelivered(url, attempt, 0, maxRetries)
    case Some(k) => Some(attempt(url, k).text)
    case None => None
  }

  /** How many attempts `fetchWithRetry` makes. */
  function AttemptsMade(url: string, attempt: (string, nat) -> FetchOutcome, maxRetries: int): (n: nat)
    ensures n <= if maxRetries < 0 then 0 else maxRetries
  {
    match FirstDelivered(url, attempt, 0, maxRetries)
    case Some(k) => k + 1
    case None => if maxRetries < 0 then 0 else maxRetries
  }

  function Pow2(n: nat): (r: nat)
    ensures r >= 1
  {
    if n == 0 then 1 else 2 * Pow2(n - 1)
  }

  /** The waits before attempts 1, 2, ...: `initialDelay * 2^(attempt-1)`. */
  function Backoff(initialDelay: int, attempts: nat): (r: seq<int>)
    ensures |r| == if attempts == 0 then 0 else attempts - 1
    ensures forall k :: 0 <= k < |r| ==> r[k] == initialDelay * Pow2(k)
  {
    seq(if attempts == 0 then 0 else attempts - 1, k requires 0 <= k => initialDelay * Pow2(k))
  }

  /** With a positive initial delay each wait is double the one before, so the waits strictly increase. */
  lemma BackoffDoubles(initialDelay: int, attempts: nat)
    requires initialDelay > 0
    ensures forall k :: 0 < k < |Backoff(initialDelay, attempts)| ==>
      Backoff(initialDelay, attempts)[k] == 2 * Backoff(initialDelay, attempts)[k - 1]
    ensures forall j, k :: 0 <= j < k < |Backoff(initialDelay, attempts)| ==>
      Backoff(initialDelay, attempts)[j] < Backoff(initialDelay, attempts)[k]
  {
    var r := Backoff(initialDelay, attempts);
    forall k | 0 < k < |r| ensures r[k] == 2 * r[k - 1] {
      assert Pow2(k) == 2 * Pow2(k - 1);
      assert initialDelay * (2 * Pow2(k - 1)) == 2 * (initialDelay * Pow2(k - 1));
    }
    forall j, k | 0 <= j < k < |r| ensures r[j] < r[k] {
      Pow2Increasing(j, k);
      MulMonotone(initialDelay, Pow2(j), Pow2(k));
    }
  }

  lemma MulMonotone(d: int, a: int, b: int)
    requires d > 0 && a < b
    ensures d * a < d * b
  {
    assert d * b == d * a + d * (b - a);
  }

  lemma {:induction false} Pow2Increasing(j: nat, k: nat)
    requires j < k
    ensures Pow2(j) < Pow2(k)
    decreases k
  {
    if j < k - 1 {
      Pow2Increasing(j, k - 1);
    }
  }

  /** With the defaults, a source that never delivers is tried three times, waiting 2 s and then 4 s. */
  lemma DefaultBackoff()
    ensures Backoff(InitialDelay, MaxRetries) == [2000, 4000]
  {
  }

  /** `fetchWithRetry(url)`. The returned waits stand for the sleeps between attempts. */
  method FetchWithRetry(url: string, maxRetries: int, initialDelay: int, attempt: (string, nat) -> FetchOutcome)
    returns (html: Option<string>, delays: seq<int>, attempts: nat)
    ensures html == Fetched(url, attempt, maxRetries)
    ensures attempts == AttemptsMade(url, attempt, maxRetries)
    ensures delays == Backoff(initialDelay, attempts)
  {
    html := None;
    delays := [];
    attempts := 0;
    var a: nat := 0;
    while a < maxRetries
      invariant maxRetries < 0 ==> a == 0
      invariant maxRetries >= 0 ==> a <= maxRetries
      invariant attempts == a
      invariant forall k :: 0 <= k < a ==> !Delivered(attempt(url, k))
      invariant FirstDelivered(url, attempt, 0, maxRetries) == FirstDelivered(url, attempt, a, maxRetries)
      invariant delays == Backoff(initialDelay, a)
      decreases maxRetries - a
    {
      if a > 0 {
        delays := delays + [initialDelay * Pow2(a - 1)];
      }
      assert delays == Backoff(initialDelay, a + 1);
      attempts := a + 1;
      var o := attempt(url, a);
      if o.HttpBody? && o.text != "" {
        html := Some(o.text);
        return;
      }
      if o.FetchThrew? && a == maxRetries - 1 {
        assert FirstDelivered(url, attempt, a, maxRetries) == None;
        break;
      }
      a := a + 1;
    }
  }

  // ---------------------------------------------------------------- AI extraction

  /** How much of the page is put into the prompt. */
  const HtmlExcerptLength: nat := 12000

  const DefaultDeadlineDays: int := 60

  /** `String(v || fallback).substring(0, n).trim()`. */
  function TrimmedField(v: RawValue, fallback: string, n: nat): (r: string)
    ensures |r| <= n && Trimmed(r)
    ensures !Truthy(v) ==> r == Trim(Seqs.Prefix(fallback, n))
    ensures v.Text? && v.s != "" ==> r == Trim(Seqs.Prefix(v.s, n))
  {
    Trim(Seqs.Prefix(OrElse(v, fallback), n))
  }

  /** The scheduler's mapping of one kept entry to a job. */
  function MapJob(e: RawEntry, source: string, category: string, now: Millis): (j: InsertJob)
    ensures |j.title| <= 100 && Trimmed(j.title) && |j.company| <= 100 && Trimmed(j.company)
    ensures e.title.Text? && e.title.s != "" ==> j.title == Trim(Seqs.Prefix(e.title.s, 100))
    ensures e.company.Text? && e.company.s != "" ==> j.company == Trim(Seqs.Prefix(e.company.s, 100))
    ensures |j.location| <= 100 && Trimmed(j.location)
    ensures !Truthy(e.location) ==> j.location == Trim(Seqs.Prefix(source, 100))
    ensures |j.jobType| <= 50
    ensures !Truthy(e.jobType) ==> j.jobType == "Full-time"
    ensures j.category == Some(category)
    ensures !Truthy(e.deadline) ==> j.deadline == Dates.DeadlineAfter(now, DefaultDeadlineDays)
    ensures e.deadline.Text? && e.deadline.s != "" ==> j.deadline == e.deadline.s
    ensures e.deadline.NonText? && e.deadline.truthy ==> j.deadline == e.deadline.shown
    ensures |j.description| <= 200 && Trimmed(j.description)
    ensures !Truthy(e.description) ==> j.description == Trim(Seqs.Prefix("Jobs from " + source, 200))
    ensures j.salary.Some? && |j.salary.value| <= 100
    ensures !Truthy(e.salary) ==> j.salary == Some("Varies")
    ensures j.requirements.None?
  {
    InsertJob(
      TrimmedField(e.title, "", 100),
      TrimmedField(e.company, "", 100),
      TrimmedField(e.location, source, 100),
      Seqs.Prefix(OrElse(e.jobType, "Full-time"), 50),
      Some(category),
      OrElse(e.deadline, Dates.DeadlineAfter(now, DefaultDeadlineDays)),
      TrimmedField(e.description, "Jobs from " + source, 200),
      Some(Seqs.Prefix(OrElse(e.salary, "Varies"), 100)),
      None)
  }

  /**
   * `extractJobsWithAI(html, source, category)`. `generate` is the AI call on the page excerpt
   * (`None` when it throws); `parse` is `JSON.parse`.
   */
  function ExtractJobs(html: string, source: string, category: string, aiReady: bool,
                       generate: string -> Option<string>, parse: string -> JsonOutcome, now: Millis): (r: seq<InsertJob>)
    ensures !aiReady ==> r == []
    ensures aiReady && generate(Seqs.Prefix(html, HtmlExcerptLength)).None? ==> r == []
    ensures aiReady && generate(Seqs.Prefix(html, HtmlExcerptLength)).Some? ==>
      var c := ReplyCandidates(Trim(generate(Seqs.Prefix(html, HtmlExcerptLength)).value), parse);
      |r| == |c| && forall i :: 0 <= i < |r| ==> r[i] == MapJob(c[i], source, category, now)
  {
    if !aiReady then []
    else match generate(Seqs.Prefix(html, HtmlExcerptLength))
      case None => []
      case Some(reply) =>
        var c := ReplyCandidates(Trim(reply), parse);
        seq(|c|, i requires 0 <= i < |c| => MapJob(c[i], source, category, now))
  }

  /** Each source contributes at most five jobs, all filed under the source's category and carrying a title and a company. */
  lemma ExtractJobsShape(html: string, source: string, category: string, aiReady: bool,
                         generate: string -> Option<string>, parse: string -> JsonOutcome, now: Millis)
    ensures var r := ExtractJobs(html, source, category, aiReady, generate, parse, now);
      && |r| <= MaxJobsPerSource
      && forall i :: 0 <= i < |r| ==> r[i].category == Some(category)
  {
  }

  // ---------------------------------------------------------------- batches

  /** The external services one batch talks to. */
  datatype Oracles = Oracles(
    robots: string -> RobotsResponse,
    isAllowed: (string, string) -> RobotsVerdict,
    attempt: (string, nat) -> FetchOutcome,
    generate: string -> Option<string>,
    parse: string -> JsonOutcome)

  const BatchSize: nat := 5

  /** `sources.slice(i, i + 5)`: no wrap-around, so a batch near the end is shorter. */
  function BatchOf(sources: seq<Source>, i: nat): (r: seq<Source>)
    ensures |r| == if i >= |sources| then 0 else if i + BatchSize <= |sources| then BatchSize else |sources| - i
    ensures forall k :: 0 <= k < |r| ==> r[k] == sources[i + k]
  {
    if i >= |sources| then [] else if i + BatchSize <= |sources| then sources[i..i + BatchSize] else sources[i..]
  }

  /** The cursor after a batch. */
  function NextIndex(n: nat, i: nat): (r: nat)
    requires n > 0
    ensures r < n
    ensures i + BatchSize < n ==> r == i + BatchSize
    ensures i + BatchSize >= n ==> r == (i + BatchSize) % n
  {
    (i + BatchSize) % n
  }

  function Names(batch: seq<Source>): (r: seq<string>)
    ensures |r| == |batch| && forall k :: 0 <= k < |r| ==> r[k] == batch[k].name
  {
    seq(|batch|, k requires 0 <= k < |batch| => batch[k].name)
  }

  /** The jobs one source yields, or `None` when robots.txt blocks it or the fetch gives up. */
  function SourceJobs(src: Source, o: Oracles, now: Millis): (r: Option<seq<InsertJob>>)
    ensures r.None? <==>
      !CanScrape(o.robots(src.baseUrl), src.baseUrl, o.isAllowed) || Fetched(src.baseUrl, o.attempt, MaxRetries).None?
  {
    if !CanScrape(o.robots(src.baseUrl), src.baseUrl, o.isAllowed) then None
    else match Fetched(src.baseUrl, o.attempt, MaxRetries)
      case None => None
      case Some(html) => Some(ExtractJobs(html, src.name, src.category, true, o.generate, o.parse, now))
  }

  /** A source yields at most five jobs. */
  lemma SourceJobsBounded(src: Source, o: Oracles, now: Millis)
    ensures SourceJobs(src, o, now).Some? ==> |SourceJobs(src, o, now).value| <= MaxJobsPerSource
  {
  }

  /** What each source of the batch yields, in order. */
  function Yields(batch: seq<Source>, o: Oracles, now: Millis): (r: seq<Option<seq<InsertJob>>>)
    ensures |r| == |batch|
  {
    Seqs.Map(batch, src => SourceJobs(src, o, now))
  }

  /** The `k`-th yield is the `k`-th source's. */
  lemma YieldsAt(batch: seq<Source>, o: Oracles, now: Millis)
    ensures forall k :: 0 <= k < |batch| ==> Yields(batch, o, now)[k] == SourceJobs(batch[k], o, now)
  {
    Seqs.MapAt(batch, src => SourceJobs(src, o, now));
  }

  /** The cache write a source causes: only when it yields at least one job. */
  function WriteOf(name: string, y: Option<seq<InsertJob>>): (r: seq<(string, seq<InsertJob>)>)
    ensures |r| <= 1
  {
    match y
    case Some(jobs) => if |jobs| > 0 then [(name, jobs)] else []
    case None => []
  }

  /** The cache writes of a batch, in source order. */
  function Writes(names: seq<string>, ys: seq<Option<seq<InsertJob>>>): seq<(string, seq<InsertJob>)>
    requires |names| == |ys|
  {
    if ys == [] then [] else Writes(names[..|names| - 1], ys[..|ys| - 1]) + WriteOf(names[|names| - 1], ys[|ys| - 1])
  }

  /** The number of `createJob` calls the writes cause: one per cached job. */
  function CreateCalls(ws: seq<(string, seq<InsertJob>)>): nat {
    if ws == [] then 0 else CreateCalls(ws[..|ws| - 1]) + |ws[|ws| - 1].1|
  }

  function ApplyWrites(om: OrderedMaps.OMap<CacheEntry>, ws: seq<(string, seq<InsertJob>)>, now: Millis): (r: OrderedMaps.OMap<CacheEntry>)
    requires om.Valid()
    ensures r.Valid()
  {
    if ws == [] then om
    else
      var w := ws[|ws| - 1];
      ApplyWrites(om, ws[..|ws| - 1], now).Set(w.0, CacheEntry(w.1, now, w.0))
  }

  /**
   * Every write names a source of the batch and carries between one and five jobs, so a batch
   * causes at most five `createJob` calls per source.
   */
  lemma WritesBounded(names: seq<string>, ys: seq<Option<seq<InsertJob>>>)
    requires |names| == |ys|
    requires forall k :: 0 <= k < |ys| && ys[k].Some? ==> |ys[k].value| <= MaxJobsPerSource
    ensures |Writes(names, ys)| <= |ys|
    ensures forall k :: 0 <= k < |Writes(names, ys)| ==>
      var w := Writes(names, ys)[k];
      0 < |w.1| <= MaxJobsPerSource && w.0 in names
    ensures CreateCalls(Writes(names, ys)) <= MaxJobsPerSource * |ys|
  {
    WritesEntries(names, ys);
    WritesCalls(names, ys);
  }

  lemma {:induction false} WritesEntries(names: seq<string>, ys: seq<Option<seq<InsertJob>>>)
    requires |names| == |ys|
    requires forall k :: 0 <= k < |ys| && ys[k].Some? ==> |ys[k].value| <= MaxJobsPerSource
    ensures |Writes(names, ys)| <= |ys|
    ensures forall k :: 0 <= k < |Writes(names, ys)| ==>
      0 < |Writes(names, ys)[k].1| <= MaxJobsPerSource && Writes(names, ys)[k].0 in names
  {
    if ys != [] {
      var n := |ys|;
      var nf, yf := names[..n - 1], ys[..n - 1];
      WritesEntries(nf, yf);
      var ws := Writes(names, ys);
      var wf := Writes(nf, yf);
      var w := WriteOf(names[n - 1], ys[n - 1]);
      assert ws == wf + w;
      WriteOfBounded(names[n - 1], ys[n - 1]);
      forall k | 0 <= k < |ws|
        ensures 0 < |ws[k].1| <= MaxJobsPerSource && ws[k].0 in names
      {
        if k < |wf| {
          assert ws[k] == wf[k];
          var q :| 0 <= q < |nf| && nf[q] == ws[k].0;
          assert names[q] == ws[k].0;
        } else {
          assert ws[k] == w[0];
        }
      }
    }
  }

  lemma {:induction false} WritesCalls(names: seq<string>, ys: seq<Option<seq<InsertJob>>>)
    requires |names| == |ys|
    requires forall k :: 0 <= k < |ys| && ys[k].Some? ==> |ys[k].value| <= MaxJobsPerSource
    ensures CreateCalls(Writes(names, ys)) <= MaxJobsPerSource * |ys|
  {
    if ys != [] {
      var n := |ys|;
      var nf, yf := names[..n - 1], ys[..n - 1];
      WritesCalls(nf, yf);
      var w := WriteOf(names[n - 1], ys[n - 1]);
      assert Writes(names, ys) == Writes(nf, yf) + w;
      WriteOfBounded(names[n - 1], ys[n - 1]);
      CreateCallsAppend(Writes(nf, yf), w);
    }
  }

  /** One source's write: none, or its name with one to five jobs. */
  lemma WriteOfBounded(name: string, y: Option<seq<InsertJob>>)
    requires y.Some? ==> |y.value| <= MaxJobsPerSource
    ensures |WriteOf(name, y)| <= 1
    ensures WriteOf(name, y) != [] ==> WriteOf(name, y)[0].0 == name && 0 < |WriteOf(name, y)[0].1| <= MaxJobsPerSource
    ensures CreateCalls(WriteOf(name, y)) <= MaxJobsPerSource
  {
    var w := WriteOf(name, y);
    if w != [] {
      assert w[..0] == [];
    }
  }

  /** Sources that yield nothing cause no writes. */
  lemma {:induction false} NoYieldNoWrites(names: seq<string>, ys: seq<Option<seq<InsertJob>>>)
    requires |names| == |ys|
    requires forall k :: 0 <= k < |ys| ==> ys[k].None?
    ensures Writes(names, ys) == []
  {
    if ys != [] {
      NoYieldNoWrites(names[..|names| - 1], ys[..|ys| - 1]);
    }
  }

  /** A batch whose every source is blocked by robots.txt writes nothing and saves nothing. */
  lemma BlockedBatchWritesNothing(batch: seq<Source>, o: Oracles, now: Millis)
    requires forall k :: 0 <= k < |batch| ==> !CanScrape(o.robots(batch[k].baseUrl), batch[k].baseUrl, o.isAllowed)
    ensures Writes(Names(batch), Yields(batch, o, now)) == []
  {
    YieldsAt(batch, o, now);
    NoYieldNoWrites(Names(batch), Yields(batch, o, now));
  }

  /** From the start, three batches visit the registry exactly once, in order, and return to 0. */
  lemma RoundRobinCycle()
    ensures NextIndex(|AllSources|, 0) == 5
    ensures NextIndex(|AllSources|, 5) == 10
    ensures NextIndex(|AllSources|, 10) == 0
    ensures BatchOf(AllSources, 0) + BatchOf(AllSources, 5) + BatchOf(AllSources, 10) == AllSources
  {
    assert AllSources[0..5] + AllSources[5..10] + AllSources[10..15] == AllSources;
  }

  /**
   * For a registry whose length is not a multiple of five the cursor does not realign: with
   * seven sources the second batch holds only two, and the third starts at index 3.
   */
  lemma ShortBatchWithoutWrap(sources: seq<Source>)
    requires |sources| == 7
    ensures BatchOf(sources, 5) == sources[5..7]
    ensures NextIndex(|sources|, 5) == 3
    ensures BatchOf(sources, 3) == sources[3..7]
  {
  }

  class Scheduler {
    /** The module-level `currentSourceIndex`. */
    var currentSourceIndex: nat
    /** The registry, `AllSources`. */
    const sources: seq<Source>
    const cache: JobCache

    ghost predicate Valid()
      reads this, cache
    {
      currentSourceIndex < |sources| && cache.Valid()
    }

    constructor(c: JobCache)
      requires c.Valid()
      ensures Valid()
      ensures currentSourceIndex == 0 && sources == AllSources && cache == c
    {
      currentSourceIndex := 0;
      sources := AllSources;
      cache := c;
    }

    /**
     * `scrapeNextBatch`. `aiReady` is whether the AI client was initialised; `created(k)` is
     * whether the `k`-th `createJob` call of this batch returns rather than throws.
     */
    method ScrapeNextBatch(aiReady: bool, o: Oracles, created: nat -> bool, now: Millis)
      requires Valid()
      modifies this, cache
      ensures Valid()
      ensures !aiReady ==>
        && currentSourceIndex == old(currentSourceIndex)
        && cache.cache == old(cache.cache)
        && cache.logs == KeepLast(old(cache.logs) + [ScrapingLog(now, [], 0, Failed, Some("Gemini AI not initialized"))], MaxLogs)
      ensures aiReady ==>
        var batch := BatchOf(sources, old(currentSourceIndex));
        var ws := Writes(Names(batch), Yields(batch, o, now));
        && currentSourceIndex == NextIndex(|sources|, old(currentSourceIndex))
        && cache.cache == ApplyWrites(old(cache.cache), ws, now)
        && cache.logs == KeepLast(old(cache.logs) + [ScrapingLog(now, Names(batch), Seqs.CountTrue(created, 0, CreateCalls(ws)), Success, None)], MaxLogs)
    {
      if !aiReady {
        cache.AddLog([], 0, Failed, Some("Gemini AI not initialized"), now);
        return;
      }
      var batch := BatchOf(sources, currentSourceIndex);
      var names := Names(batch);
      var totalJobsAdded := ScrapeBatchSources(cache, batch, o, created, now);
      currentSourceIndex := NextIndex(|sources|, currentSourceIndex);
      cache.AddLog(names, totalJobsAdded, Success, None, now);
    }
  }

  /**
   * The `for (const source of batchSources)` loop of `scrapeNextBatch`: each source's yield is
   * written to the cache in turn, and the result counts the `createJob` calls that returned.
   */
  method ScrapeBatchSources(cache: JobCache, batch: seq<Source>, o: Oracles, created: nat -> bool, now: Millis)
    returns (totalJobsAdded: nat)
    requires cache.Valid()
    modifies cache
    ensures cache.Valid() && cache.logs == old(cache.logs)
    ensures cache.cache == ApplyWrites(old(cache.cache), Writes(Names(batch), Yields(batch, o, now)), now)
    ensures totalJobsAdded == Seqs.CountTrue(created, 0, CreateCalls(Writes(Names(batch), Yields(batch, o, now))))
  {
    var names := Names(batch);
    totalJobsAdded := 0;
    var calls: nat := 0;
    ghost var ys: seq<Option<seq<InsertJob>>> := [];
    for s := 0 to |batch|
      invariant ys == Yields(batch[..s], o, now)
      invariant cache.Valid() && cache.logs == old(cache.logs)
      invariant cache.cache == ApplyWrites(old(cache.cache), Writes(names[..s], ys), now)
      invariant calls == CreateCalls(Writes(names[..s], ys))
      invariant totalJobsAdded == SavedCalls(created, Writes(names[..s], ys))
    {
      var y;
      y, calls, totalJobsAdded := BatchTurn(cache, batch, names, o, created, now, s, ys, old(cache.cache), calls, totalJobsAdded);
      ys := ys + [y];
    }
    assert names[..|batch|] == names;
    assert batch[..|batch|] == batch;
    SavedCallsIsCount(created, Writes(names, ys));
  }

  /** Source `s` of the batch takes its turn, and the loop's running totals move on by its write. */
  method BatchTurn(cache: JobCache, batch: seq<Source>, names: seq<string>, o: Oracles, created: nat -> bool, now: Millis,
                   s: nat, ghost ys: seq<Option<seq<InsertJob>>>, ghost om: OrderedMaps.OMap<CacheEntry>, calls: nat, total: nat)
    returns (y: Option<seq<InsertJob>>, calls': nat, total': nat)
    requires s < |batch| && names == Names(batch) && cache.Valid() && om.Valid()
    requires ys == Yields(batch[..s], o, now)
    requires cache.cache == ApplyWrites(om, Writes(names[..s], ys), now)
    requires calls == CreateCalls(Writes(names[..s], ys))
    requires total == SavedCalls(created, Writes(names[..s], ys))
    modifies cache
    ensures cache.Valid() && cache.logs == old(cache.logs)
    ensures ys + [y] == Yields(batch[..s + 1], o, now)
    ensures cache.cache == ApplyWrites(om, Writes(names[..s + 1], ys + [y]), now)
    ensures calls' == CreateCalls(Writes(names[..s + 1], ys + [y]))
    ensures total' == SavedCalls(created, Writes(names[..s + 1], ys + [y]))
  {
    ghost var before := cache.cache;
    var saved, used;
    y, saved, used := ProcessSource(cache, batch[s], o, created, calls, now);
    YieldsSnoc(batch, s, o, now, ys, y);
    BatchStep(om, created, names, ys, s, y, now, before, cache.cache, calls, used, total, saved);
    calls' := calls + used;
    total' := total + saved;
  }

  /**
   * One iteration of the batch loop: robots check, fetch, extraction, cache write and the
   * per-job `createJob` calls numbered from `calls`. Returns what the source yielded, how many
   * of the calls succeeded and how many were made.
   */
  method ProcessSource(cache: JobCache, src: Source, o: Oracles, created: nat -> bool, calls: nat, now: Millis)
    returns (yielded: Option<seq<InsertJob>>, saved: nat, used: nat)
    requires cache.Valid()
    modifies cache
    ensures yielded == SourceJobs(src, o, now)
    ensures cache.Valid()
    ensures cache.cache == ApplyWrites(old(cache.cache), WriteOf(src.name, yielded), now)
    ensures cache.logs == old(cache.logs)
    ensures used == CreateCalls(WriteOf(src.name, yielded))
    ensures saved == Seqs.CountTrue(created, calls, used)
  {
    yielded, saved, used := None, 0, 0;
    var allowed := CanScrape(o.robots(src.baseUrl), src.baseUrl, o.isAllowed);
    if !allowed {
      return;
    }
    var html, _, _ := FetchWithRetry(src.baseUrl, MaxRetries, InitialDelay, o.attempt);
    if html.None? {
      return;
    }
    var jobs := ExtractJobs(html.value, src.name, src.category, true, o.generate, o.parse, now);
    yielded := Some(jobs);
    if |jobs| > 0 {
      cache.AddJobs(src.name, jobs, now);
      saved := SaveJobs(created, calls, |jobs|);
      used := |jobs|;
      assert CreateCalls(WriteOf(src.name, yielded)) == CreateCalls([]) + |jobs|;
    }
  }

  /** The `createJob` loop over `n` jobs: counts the calls, numbered from `base`, that do not throw. */
  method SaveJobs(created: nat -> bool, base: nat, n: nat) returns (saved: nat)
    ensures saved == Seqs.CountTrue(created, base, n)
    ensures saved <= n
  {
    saved := 0;
    for j := 0 to n
      invariant saved == Seqs.CountTrue(created, base, j)
    {
      if created(base + j) {
        saved := saved + 1;
      }
    }
  }

  lemma YieldsSnoc(batch: seq<Source>, s: nat, o: Oracles, now: Millis, ys: seq<Option<seq<InsertJob>>>, y: Option<seq<InsertJob>>)
    requires s < |batch| && ys == Yields(batch[..s], o, now) && y == SourceJobs(batch[s], o, now)
    ensures ys + [y] == Yields(batch[..s + 1], o, now)
  {
    Seqs.MapSnoc(batch, s, src => SourceJobs(src, o, now));
  }

  /** How the cache, the call count and the saved count move on when source `s` has yielded `y`. */
  lemma BatchStep(om: OrderedMaps.OMap<CacheEntry>, created: nat -> bool, names: seq<string>,
                  ys: seq<Option<seq<InsertJob>>>, s: nat, y: Option<seq<InsertJob>>, now: Millis,
                  before: OrderedMaps.OMap<CacheEntry>, after: OrderedMaps.OMap<CacheEntry>,
                  calls: nat, used: nat, total: nat, saved: nat)
    requires om.Valid() && s == |ys| < |names|
    requires before == ApplyWrites(om, Writes(names[..s], ys), now)
    requires after == ApplyWrites(before, WriteOf(names[s], y), now)
    requires calls == CreateCalls(Writes(names[..s], ys)) && used == CreateCalls(WriteOf(names[s], y))
    requires total == SavedCalls(created, Writes(names[..s], ys)) && saved == Seqs.CountTrue(created, calls, used)
    ensures after == ApplyWrites(om, Writes(names[..s + 1], ys + [y]), now)
    ensures calls + used == CreateCalls(Writes(names[..s + 1], ys + [y]))
    ensures total + saved == SavedCalls(created, Writes(names[..s + 1], ys + [y]))
  {
    var ws := Writes(names[..s], ys);
    var w := WriteOf(names[s], y);
    WritesSnoc(names, ys, s, y);
    ApplyWritesAppend(om, ws, w, now);
    CreateCallsAppend(ws, w);
    SavedCallsAppend(created, ws, w);
  }

  lemma WritesSnoc(names: seq<string>, ys: seq<Option<seq<InsertJob>>>, s: nat, y: Option<seq<InsertJob>>)
    requires s == |ys| < |names|
    ensures Writes(names[..s + 1], ys + [y]) == Writes(names[..s], ys) + WriteOf(names[s], y)
  {
    assert names[..s + 1][..s] == names[..s];
    assert (ys + [y])[..s] == ys;
  }

  /** The `createJob` calls of the writes that return, the calls being numbered in write order. */
  ghost function SavedCalls(created: nat -> bool, ws: seq<(string, seq<InsertJob>)>): nat {
    if ws == [] then 0
    else SavedCalls(created, ws[..|ws| - 1]) + Seqs.CountTrue(created, CreateCalls(ws[..|ws| - 1]), |ws[|ws| - 1].1|)
  }

  lemma SavedCallsAppend(created: nat -> bool, ws: seq<(string, seq<InsertJob>)>, w: seq<(string, seq<InsertJob>)>)
    requires |w| <= 1
    ensures SavedCalls(created, ws + w) == SavedCalls(created, ws) + Seqs.CountTrue(created, CreateCalls(ws), CreateCalls(w))
  {
    if w == [] {
      assert ws + w == ws;
    } else {
      assert (ws + w)[..|ws + w| - 1] == ws;
      assert w[..0] == [];
    }
  }

  lemma {:induction false} SavedCallsIsCount(created: nat -> bool, ws: seq<(string, seq<InsertJob>)>)
    ensures SavedCalls(created, ws) == Seqs.CountTrue(created, 0, CreateCalls(ws))
  {
    if ws != [] {
      var front := ws[..|ws| - 1];
      SavedCallsIsCount(created, front);
      Seqs.CountTrueSplit(created, 0, CreateCalls(front), |ws[|ws| - 1].1|);
    }
  }

  lemma ApplyWritesAppend(om: OrderedMaps.OMap<CacheEntry>, ws: seq<(string, seq<InsertJob>)>, w: seq<(string, seq<InsertJob>)>, now: Millis)
    requires om.Valid() && |w| <= 1
    ensures ApplyWrites(om, ws + w, now) == ApplyWrites(ApplyWrites(om, ws, now), w, now)
  {
    if w == [] {
      assert ws + w == ws;
    } else {
      assert (ws + w)[..|ws + w| - 1] == ws;
      assert w[..0] == [];
    }
  }

  lemma CreateCallsAppend(ws: seq<(string, seq<InsertJob>)>, w: seq<(string, seq<InsertJob>)>)
    requires |w| <= 1
    ensures CreateCalls(ws + w) == CreateCalls(ws) + CreateCalls(w)
  {
    if w == [] {
      assert ws + w == ws;
    } else {
      assert (ws + w)[..|ws + w| - 1] == ws;
      assert w[..0] == [];
    }
  }

  /** With a store whose `createJob` never throws, the logged count is the number of cached jobs. */
  lemma EveryCreateCounted(ws: seq<(string, seq<InsertJob>)>, created: nat -> bool)
    requires forall k :: created(k)
    ensures Seqs.CountTrue(created, 0, CreateCalls(ws)) == CreateCalls(ws)
  {
    Seqs.CountTrueAll(created, 0, CreateCalls(ws));
  }
}
