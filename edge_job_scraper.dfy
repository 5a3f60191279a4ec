/**
 * The `job-scraper` edge function: on a POST it fetches each of its five registry pages, asks
 * the generator for the jobs on the first 8000 characters, maps at most five entries per page
 * to job rows without trimming, inserts each row and reports how many rows it handled.
 */
module EdgeJobScraper {
  import opened Common
  import opened Strings
  import Seqs
  import Dates
  import opened AiExtraction
  import Schema

  datatype Source = Source(name: string, baseUrl: string, category: string)

  const AllSources: seq<Source> := [
    Source("UPSC", "https://www.upsc.gov.in", "Administrative / Civil Services"),
    Source("SSC", "https://www.ssc.nic.in", "Central Government"),
    Source("RRB", "https://www.rrbcdg.gov.in", "Railways"),
    Source("IBPS", "https://www.ibps.in", "Banking"),
    Source("RBI", "https://opportunities.rbi.org.in", "Banking")
  ]

  /** The registry's categories are all among the schema's job categories. */
  lemma SourceCategoriesAreJobCategories()
    ensures forall i :: 0 <= i < |AllSources| ==> AllSources[i].category in Schema.JobCategories
  {
  }

  /** The row the function inserts: every field is a plain string. */
  datatype EdgeJob = EdgeJob(
    title: string, company: string, location: string, jobType: string, category: string,
    deadline: string, description: string, salary: string)

  const HtmlExcerptLength: nat := 8000
  const DefaultDeadlineDays: int := 60

  /** The `map` step: each field cut to its width, with the defaults of this function. */
  function MapJob(e: RawEntry, source: string, category: string, now: Millis): (j: EdgeJob)
    ensures |j.title| <= 100 && |j.company| <= 100 && |j.location| <= 100
    ensures e.title.Text? && e.title.s != "" ==> j.title == Seqs.Prefix(e.title.s, 100)
    ensures e.company.Text? && e.company.s != "" ==> j.company == Seqs.Prefix(e.company.s, 100)
    ensures !Truthy(e.location) ==> j.location == Seqs.Prefix(source, 100)
    ensures e.location.Text? && e.location.s != "" ==> j.location == Seqs.Prefix(e.location.s, 100)
    ensures |j.jobType| <= 50
    ensures !Truthy(e.jobType) ==> j.jobType == "Full-time"
    ensures j.category == category
    ensures !Truthy(e.deadline) ==> j.deadline == Dates.DeadlineAfter(now, DefaultDeadlineDays)
    ensures e.deadline.Text? && e.deadline.s != "" ==> j.deadline == e.deadline.s
    ensures e.deadline.NonText? && e.deadline.truthy ==> j.deadline == e.deadline.shown
    ensures |j.description| <= 200
    ensures !Truthy(e.description) ==> j.description == ""
    ensures |j.salary| <= 100
    ensures !Truthy(e.salary) ==> j.salary == "Varies"
  {
    EdgeJob(
      Seqs.Prefix(OrElse(e.title, ""), 100),
      Seqs.Prefix(OrElse(e.company, ""), 100),
      Seqs.Prefix(OrElse(e.location, source), 100),
      Seqs.Prefix(OrElse(e.jobType, "Full-time"), 50),
      category,
      OrElse(e.deadline, Dates.DeadlineAfter(now, DefaultDeadlineDays)),
      Seqs.Prefix(OrElse(e.description, ""), 200),
      Seqs.Prefix(OrElse(e.salary, "Varies"), 100))
  }

  /**
   * `extractJobsWithAI`: `generate` is the generator's reply text for the excerpt, or `None` when
   * the request or the decoding of its answer throws; a reply without text is `Some("")`.
   */
  function ExtractJobs(html: string, source: string, category: string,
                       generate: string -> Option<string>, parse: string -> JsonOutcome, now: Millis): (r: seq<EdgeJob>)
    ensures generate(Seqs.Prefix(html, HtmlExcerptLength)).None? ==> r == []
    ensures generate(Seqs.Prefix(html, HtmlExcerptLength)).Some? ==>
      var c := ReplyCandidates(generate(Seqs.Prefix(html, HtmlExcerptLength)).value, parse);
      |r| == |c| && forall i :: 0 <= i < |r| ==> r[i] == MapJob(c[i], source, category, now)
  {
    match generate(Seqs.Prefix(html, HtmlExcerptLength))
    case None => []
    case Some(reply) =>
      var c := ReplyCandidates(reply, parse);
      seq(|c|, i requires 0 <= i < |c| => MapJob(c[i], source, category, now))
  }

  /** At most five rows per page, all in the caller's category. */
  lemma ExtractJobsShape(html: string, source: string, category: string,
                         generate: string -> Option<string>, parse: string -> JsonOutcome, now: Millis)
    ensures var r := ExtractJobs(html, source, category, generate, parse, now);
      |r| <= MaxJobsPerSource && forall i :: 0 <= i < |r| ==> r[i].category == category
  {
  }

  /**
   * Unlike the scheduler's mapping, this one keeps surrounding whitespace: a padded title is
   * stored as it came.
   */
  lemma TitlesAreNotTrimmed(source: string, category: string, now: Millis)
    ensures MapJob(RawEntry(Text(" UPSC CSE "), Text("UPSC"), Absent, Absent, Absent, Absent, Absent),
                   source, category, now).title == " UPSC CSE "
  {
  }

  /** The network, the generator and the JSON parser, as the function sees them. */
  datatype EdgeOracles = EdgeOracles(
    page: string -> Option<string>,
    generate: string -> Option<string>,
    parse: string -> JsonOutcome)

  /** `fetch(url).then(r => r.text()).catch(() => "")`: the body whatever the status, or `""`. */
  function PageText(src: Source, o: EdgeOracles): (html: string)
    ensures o.page(src.baseUrl).None? ==> html == ""
  {
    match o.page(src.baseUrl)
    case None => ""
    case Some(t) => t
  }

  /** The rows one source yields: none when its page is empty. */
  function SourceJobs(src: Source, o: EdgeOracles, now: Millis): (r: seq<EdgeJob>)
    ensures PageText(src, o) == "" ==> r == []
    ensures PageText(src, o) != "" ==> r == ExtractJobs(PageText(src, o), src.name, src.category, o.generate, o.parse, now)
  {
    var html := PageText(src, o);
    if html == "" then [] else ExtractJobs(html, src.name, src.category, o.generate, o.parse, now)
  }

  /** The rows a run over `sources` inserts, in registry order. */
  function AllJobs(sources: seq<Source>, o: EdgeOracles, now: Millis): seq<EdgeJob> {
    Seqs.FlatMap(sources, src => SourceJobs(src, o, now))
  }

  /** A run inserts at most five rows per source. */
  lemma AllJobsBounded(sources: seq<Source>, o: EdgeOracles, now: Millis)
    ensures |AllJobs(sources, o, now)| <= MaxJobsPerSource * |sources|
  {
    forall i | 0 <= i < |sources|
      ensures |SourceJobs(sources[i], o, now)| <= MaxJobsPerSource
    {
      ExtractJobsShape(PageText(sources[i], o), sources[i].name, sources[i].category, o.generate, o.parse, now);
    }
    Seqs.FlatMapBounded(sources, src => SourceJobs(src, o, now), MaxJobsPerSource);
  }

  /** Every inserted row carries the category of some source of the run. */
  lemma InsertedCategories(sources: seq<Source>, o: EdgeOracles, now: Millis, j: EdgeJob)
    requires j in AllJobs(sources, o, now)
    ensures exists i :: 0 <= i < |sources| && j.category == sources[i].category
  {
    Seqs.FlatMapOrigin(sources, src => SourceJobs(src, o, now), j);
    var i :| 0 <= i < |sources| && j in SourceJobs(sources[i], o, now);
    ExtractJobsShape(PageText(sources[i], o), sources[i].name, sources[i].category, o.generate, o.parse, now);
  }

  /** When no page can be fetched, nothing is inserted. */
  lemma NoPagesNoRows(sources: seq<Source>, o: EdgeOracles, now: Millis)
    requires forall url :: o.page(url).None?
    ensures AllJobs(sources, o, now) == []
  {
    Seqs.FlatMapNone(sources, src => SourceJobs(src, o, now));
  }

  datatype ResponseBody = ErrorBody(error: string) | AddedBody(success: bool, jobsAdded: nat)
  datatype Response = Response(status: nat, body: ResponseBody)

  /**
   * The handler's loop over `sources`: `inserted` lists the rows handed to the insert, in order;
   * an insert's failure is swallowed and the row is counted all the same.
   */
  method ScrapeAll(sources: seq<Source>, o: EdgeOracles, now: Millis) returns (totalJobs: nat, inserted: seq<EdgeJob>)
    ensures inserted == AllJobs(sources, o, now)
    ensures totalJobs == |inserted|
  {
    totalJobs := 0;
    inserted := [];
    for s := 0 to |sources|
      invariant inserted == AllJobs(sources[..s], o, now)
      invariant totalJobs == |inserted|
    {
      Seqs.FlatMapSnoc(sources, s, src => SourceJobs(src, o, now));
      var src := sources[s];
      var html := PageText(src, o);
      if html == "" {
        assert inserted + [] == inserted;
        continue;
      }
      var jobs := ExtractJobs(html, src.name, src.category, o.generate, o.parse, now);
      totalJobs, inserted := InsertRows(totalJobs, inserted, jobs);
    }
    assert sources[..|sources|] == sources;
  }

  /** `for (const job of jobs) { insert(job); totalJobs++ }`: every row counts, inserted or not. */
  method InsertRows(total0: nat, inserted0: seq<EdgeJob>, jobs: seq<EdgeJob>) returns (totalJobs: nat, inserted: seq<EdgeJob>)
    requires total0 == |inserted0|
    ensures inserted == inserted0 + jobs && totalJobs == total0 + |jobs|
  {
    totalJobs, inserted := total0, inserted0;
    for k := 0 to |jobs|
      invariant inserted == inserted0 + jobs[..k]
      invariant totalJobs == total0 + k
    {
      inserted := inserted + [jobs[k]];
      totalJobs := totalJobs + 1;
      assert jobs[..k + 1] == jobs[..k] + [jobs[k]];
    }
    assert jobs[..|jobs|] == jobs;
  }

  /** The served handler: only POST scrapes; the answer reports the number of rows handled. */
  method Serve(requestMethod: string, o: EdgeOracles, now: Millis) returns (resp: Response, inserted: seq<EdgeJob>)
    ensures requestMethod != "POST" ==> resp == Response(405, ErrorBody("POST required")) && inserted == []
    ensures requestMethod == "POST" ==> inserted == AllJobs(AllSources, o, now)
    ensures requestMethod == "POST" ==> resp == Response(200, AddedBody(true, |inserted|))
  {
    if requestMethod != "POST" {
      return Response(405, ErrorBody("POST required")), [];
    }
    var totalJobs;
    totalJobs, inserted := ScrapeAll(AllSources, o, now);
    resp := Response(200, AddedBody(true, totalJobs));
  }

  /** A POST run reports at most twenty-five rows: five sources, five rows each. */
  lemma ReportedAtMost25(o: EdgeOracles, now: Millis)
    ensures |AllJobs(AllSources, o, now)| <= 25
  {
    AllJobsBounded(AllSources, o, now);
  }
}
