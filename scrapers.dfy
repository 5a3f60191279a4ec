/**
 * The legacy scraper of official recruitment portals: the domain blacklist, the two source
 * tables, `scrapeGovernmentJobs` (at most 50 jobs from the first ten central and the first ten
 * state sources) and `updateJobsFromOfficialSources`, which stores what was scraped.
 */
module Scrapers {
  import opened Common
  import opened Strings
  import opened Schema
  import Seqs
  import Dates
  import Storage
  import OrderedMaps

  // ---------------------------------------------------------------- blacklist

  const BlacklistedDomains: seq<string> := [
    "sarkariresult.com",
    "freejobalert.com",
    "mysarkarinaukri.com",
    "sarkarinaukri.com",
    "govtjobs.co.in",
    "jagranjosh.com"
  ]

  /** `domains.some(d => url.includes(d))`. */
  function AnyIncluded(url: string, domains: seq<string>): (r: bool)
    ensures r <==> exists i :: 0 <= i < |domains| && Includes(url, domains[i])
  {
    if domains == [] then false
    else
      assert forall i :: 0 < i < |domains| ==> domains[i] == domains[1..][i - 1];
      Includes(url, domains[0]) || AnyIncluded(url, domains[1..])
  }

  /** `isBlacklistedSource`. */
  function IsBlacklistedSource(url: string): (r: bool)
    ensures r <==> exists d :: d in BlacklistedDomains && Includes(url, d)
  {
    AnyIncluded(url, BlacklistedDomains)
  }

  /** A blacklisted domain anywhere in the URL suffices: a page deep inside the site is refused. */
  lemma BlacklistMatchesInsideUrl()
    ensures IsBlacklistedSource("https://www.sarkariresult.com/latestjob")
  {
    var prefix, domain := "https://www.", "sarkariresult.com";
    var url := prefix + domain + "/latestjob";
    assert url == "https://www.sarkariresult.com/latestjob";
    assert url[|prefix|..|prefix| + |domain|] == domain;
    assert OccursAt(url, domain, 12);
    IncludesAt(url, "sarkariresult.com", 12);
  }

  // ---------------------------------------------------------------- official sources

  datatype CentralSource = CentralSource(name: string, url: string, kind: string)
  datatype StateSource = StateSource(name: string, url: string, state: string)

  const OfficialCentral: seq<CentralSource> := [
    CentralSource("UPSC", "https://www.upsc.gov.in", "UPSC Exams"),
    CentralSource("SSC", "https://www.ssc.nic.in", "SSC Exams"),
    CentralSource("RRB", "https://www.rrbcdg.gov.in", "Railway Jobs"),
    CentralSource("IBPS", "https://www.ibps.in", "Banking Jobs"),
    CentralSource("RBI", "https://opportunities.rbi.org.in", "RBI Jobs"),
    CentralSource("SBI", "https://sbi.co.in/careers", "Banking Jobs"),
    CentralSource("India Post", "https://indiapostgdsonline.gov.in", "Postal Jobs"),
    CentralSource("DRDO", "https://www.drdo.gov.in", "Defence Jobs"),
    CentralSource("ISRO", "https://www.isro.gov.in/Careers.html", "Space Jobs"),
    CentralSource("BARC", "https://recruit.barc.gov.in", "Atomic Jobs"),
    CentralSource("AIIMS", "https://www.aiimsexams.ac.in", "Medical Jobs"),
    CentralSource("ESIC", "https://www.esic.nic.in", "Labour Jobs"),
    CentralSource("FCI", "https://coalindia.in/en-us/careers", "Food Jobs"),
    CentralSource("Coal India", "https://coalindia.in/en-us/careers", "Coal Jobs"),
    CentralSource("BSNL", "https://www.bsnl.co.in/opportunities", "Telecom Jobs"),
    CentralSource("LIC", "https://www.licindia.in/careers", "Insurance Jobs"),
    CentralSource("UCIL", "https://ucil.gov.in/job.html", "Uranium Jobs"),
    CentralSource("AAI", "https://www.aai.aero/en/careers", "Aviation Jobs"),
    CentralSource("NTPC", "https://www.ntpc.co.in/en/careers", "Power Jobs"),
    CentralSource("BHEL", "https://www.bhel.com/careers/current-openings", "Power Jobs"),
    CentralSource("HPCL", "https://www.hpclcareers.com", "Oil Jobs"),
    CentralSource("Indian Oil", "https://www.indianoil.co.in/careers", "Oil Jobs"),
    CentralSource("ITB Police", "https://recruitment.itbpolice.nic.in", "Police Jobs"),
    CentralSource("BSF", "https://rectt.bsf.gov.in", "Defence Jobs"),
    CentralSource("CISF", "https://cisfrectt.cisf.gov.in", "Defence Jobs"),
    CentralSource("Assam Rifles", "https://assamrifles.gov.in", "Military Jobs"),
    CentralSource("MHA CAPF", "https://www.mha.gov.in", "Police Jobs")
  ]

  const OfficialStates: seq<StateSource> := [
    StateSource("West Bengal PSC", "https://wbpsc.gov.in", "West Bengal"),
    StateSource("Uttar Pradesh PSC", "https://uppsc.up.nic.in", "Uttar Pradesh"),
    StateSource("Bihar PSC", "https://bpsc.bih.nic.in", "Bihar"),
    StateSource("Rajasthan PSC", "https://rpsc.rajasthan.gov.in", "Rajasthan"),
    StateSource("Maharashtra PSC", "https://mpsc.gov.in", "Maharashtra"),
    StateSource("Gujarat PSC", "https://gpsc.gujarat.gov.in", "Gujarat"),
    StateSource("Tamil Nadu PSC", "https://www.tnpsc.gov.in", "Tamil Nadu"),
    StateSource("Karnataka PSC", "https://www.kpsc.kar.nic.in", "Karnataka"),
    StateSource("Telangana PSC", "https://www.tspsc.gov.in", "Telangana"),
    StateSource("Andhra Pradesh PSC", "https://psc.ap.gov.in", "Andhra Pradesh"),
    StateSource("Odisha PSC", "https://www.opsc.gov.in", "Odisha"),
    StateSource("Kerala PSC", "https://www.keralapsc.gov.in", "Kerala"),
    StateSource("Haryana PSC", "https://hpsc.gov.in", "Haryana"),
    StateSource("Himachal Pradesh PSC", "https://hppsc.hp.gov.in", "Himachal Pradesh"),
    StateSource("Uttarakhand PSC", "https://ukpsc.net.in", "Uttarakhand"),
    StateSource("Jammu & Kashmir PSC", "https://jkpsc.nic.in", "Jammu & Kashmir"),
    StateSource("Madhya Pradesh PSC", "https://mppsc.mp.gov.in", "Madhya Pradesh"),
    StateSource("Jharkhand", "https://jharkhand.gov.in/recruitment", "Jharkhand"),
    StateSource("Tripura PSC", "https://www.tpsc.tripura.gov.in", "Tripura"),
    StateSource("Assam PSC", "https://www.apsc.nic.in", "Assam"),
    StateSource("Punjab PSC", "https://ppsc.gov.in", "Punjab"),
    StateSource("Goa PSC", "https://gpsc.goa.gov.in", "Goa"),
    StateSource("Sikkim PSC", "https://www.spscskm.gov.in", "Sikkim"),
    StateSource("Manipur PSC", "https://www.mpscmanipur.gov.in", "Manipur"),
    StateSource("Mizoram PSC", "http://mpsc.mizoram.gov.in", "Mizoram"),
    StateSource("Nagaland PSC", "https://nlpsc.nic.in", "Nagaland"),
    StateSource("Arunachal Pradesh", "https://www.arunachalpradesh.gov.in", "Arunachal Pradesh"),
    StateSource("Chhattisgarh PSC", "https://cgpsc.gov.in", "Chhattisgarh"),
    StateSource("TN Police", "https://www.tnusrb.tn.gov.in", "Tamil Nadu"),
    StateSource("TN Teaching", "https://trb.tn.gov.in", "Tamil Nadu"),
    StateSource("Haryana SSC", "https://www.hssc.gov.in", "Haryana"),
    StateSource("Delhi Subordinate", "https://dsssb.delhi.gov.in", "Delhi")
  ]

  /** How many sources of each table are visited. */
  const SourcesPerTable: nat := 10
  const MaxJobs: nat := 50
  const CentralElementCap: nat := 5
  const StateElementCap: nat := 3
  const CentralDeadlineDays: int := 60
  const StateDeadlineDays: int := 45

  // ---------------------------------------------------------------- pages and elements

  /** What `fetch` does for one URL. */
  datatype PageResponse = PageNotOk | PageBody(text: string) | PageThrew

  /** `fetchWithTimeout`: the body, or `''` when the response is not OK or the request fails. */
  function FetchWithTimeout(r: PageResponse): (html: string)
    ensures html != "" ==> r.PageBody? && html == r.text
  {
    match r
    case PageBody(t) => t
    case _ => ""
  }

  /**
   * One matched element: `heading` is the text of its first heading or link descendant,
   * `body` the text the description is taken from (both before trimming).
   */
  datatype Element = Element(heading: string, body: string)

  /**
   * The services the scraper depends on: the page each URL returns, and cheerio's selection
   * of candidate elements on a central or a state page, in document order.
   */
  datatype ScrapeOracles = ScrapeOracles(
    respond: string -> PageResponse,
    centralElements: string -> seq<Element>,
    stateElements: string -> seq<Element>)

  /** A visited source: either table's entry. */
  datatype Origin = Central(c: CentralSource) | State(s: StateSource)

  function UrlOf(origin: Origin): string {
    match origin
    case Central(c) => c.url
    case State(s) => s.url
  }

  function NameOf(origin: Origin): string {
    match origin
    case Central(c) => c.name
    case State(s) => s.name
  }

  function ElementCap(origin: Origin): nat {
    if origin.Central? then CentralElementCap else StateElementCap
  }

  function ElementsOn(origin: Origin, o: ScrapeOracles, html: string): seq<Element> {
    if origin.Central? then o.centralElements(html) else o.stateElements(html)
  }

  /** The job pushed for an element with a non-empty heading. */
  function MakeJob(origin: Origin, e: Element, now: Millis): (j: InsertJob)
    requires Trim(e.heading) != ""
    ensures 0 < |j.title| <= 100 && j.title == Seqs.Prefix(Trim(e.heading), 100)
    ensures j.company == NameOf(origin)
    ensures j.jobType == "Full-time" && j.salary == Some("Varies")
    ensures j.category.None? && j.requirements.None?
    ensures Seqs.Prefix(Trim(e.body), 200) != "" ==> j.description == Seqs.Prefix(Trim(e.body), 200) && |j.description| <= 200
    ensures origin.Central? ==> j.location == "India" && j.deadline == Dates.DeadlineAfter(now, CentralDeadlineDays)
    ensures origin.Central? && Seqs.Prefix(Trim(e.body), 200) == "" ==>
      j.description == origin.c.kind + " - Apply on " + origin.c.name + " official portal"
    ensures origin.State? ==> j.location == origin.s.state && j.deadline == Dates.DeadlineAfter(now, StateDeadlineDays)
    ensures origin.State? && Seqs.Prefix(Trim(e.body), 200) == "" ==>
      j.description == "State PSC Recruitment - Apply on " + origin.s.name + " official portal"
  {
    var title := Seqs.Prefix(Trim(e.heading), 100);
    var description := Seqs.Prefix(Trim(e.body), 200);
    match origin
    case Central(c) =>
      InsertJob(title, c.name, "India", "Full-time", None, Dates.DeadlineAfter(now, CentralDeadlineDays),
        if description != "" then description else DefaultDescription(origin),
        Some("Varies"), None)
    case State(s) =>
      InsertJob(title, s.name, s.state, "Full-time", None, Dates.DeadlineAfter(now, StateDeadlineDays),
        if description != "" then description else DefaultDescription(origin),
        Some("Varies"), None)
  }

  /** The description a job falls back on when its element's text is blank; it is not cut. */
  function DefaultDescription(origin: Origin): string {
    match origin
    case Central(c) => c.kind + " - Apply on " + c.name + " official portal"
    case State(s) => "State PSC Recruitment - Apply on " + s.name + " official portal"
  }

  /** A source whose fallback description has at most 200 characters. */
  predicate DefaultFits(origin: Origin) {
    |DefaultDescription(origin)| <= 200
  }

  /** What one element gives: its job when it has a heading, else nothing. */
  function Picked(origin: Origin, e: Element, now: Millis): (r: seq<InsertJob>)
    ensures |r| <= 1
    ensures r != [] <==> Trim(e.heading) != ""
  {
    if Trim(e.heading) != "" then [MakeJob(origin, e, now)] else []
  }

  /** The jobs the elements would give, in order: one per element with a non-empty heading. */
  function Candidates(origin: Origin, elems: seq<Element>, now: Millis): seq<InsertJob> {
    Seqs.FlatMap(elems, e => Picked(origin, e, now))
  }

  /** The elements a source's page offers: none when the page is empty, else the first few matches. */
  function SourceElements(origin: Origin, o: ScrapeOracles): (r: seq<Element>)
    ensures |r| <= ElementCap(origin)
  {
    var html := FetchWithTimeout(o.respond(UrlOf(origin)));
    if html == "" then [] else Seqs.Prefix(ElementsOn(origin, o, html), ElementCap(origin))
  }

  /** The jobs one source offers. */
  function SourceCandidates(origin: Origin, o: ScrapeOracles, now: Millis): seq<InsertJob> {
    Candidates(origin, SourceElements(origin, o), now)
  }

  /** The jobs a run of sources offers, in source order. */
  function AllCandidates(origins: seq<Origin>, o: ScrapeOracles, now: Millis): seq<InsertJob> {
    Seqs.FlatMap(origins, origin => SourceCandidates(origin, o, now))
  }

  function Centrals(cs: seq<CentralSource>): (r: seq<Origin>)
    ensures |r| == |cs| && forall i :: 0 <= i < |cs| ==> r[i] == Central(cs[i])
  {
    seq(|cs|, i requires 0 <= i < |cs| => Central(cs[i]))
  }

  function States(ss: seq<StateSource>): (r: seq<Origin>)
    ensures |r| == |ss| && forall i :: 0 <= i < |ss| ==> r[i] == State(ss[i])
  {
    seq(|ss|, i requires 0 <= i < |ss| => State(ss[i]))
  }

  /** The URLs of the sources, in order. */
  function Urls(origins: seq<Origin>): (r: seq<string>)
    ensures |r| == |origins| && forall i :: 0 <= i < |r| ==> r[i] == UrlOf(origins[i])
  {
    if origins == [] then []
    else
      var front := origins[..|origins| - 1];
      assert forall i :: 0 <= i < |front| ==> front[i] == origins[i];
      Urls(front) + [UrlOf(origins[|origins| - 1])]
  }

  lemma UrlsSnoc(origins: seq<Origin>, k: nat)
    requires k < |origins|
    ensures Urls(origins[..k + 1]) == Urls(origins[..k]) + [UrlOf(origins[k])]
  {
    assert origins[..k + 1][..k] == origins[..k];
  }

  /** The sources `scrapeGovernmentJobs` may visit: the first ten of each table, central ones first. */
  function Visitable(central: seq<CentralSource>, states: seq<StateSource>): seq<Origin> {
    Centrals(Seqs.Prefix(central, SourcesPerTable)) + States(Seqs.Prefix(states, SourcesPerTable))
  }

  /** What `scrapeGovernmentJobs` returns: the offered jobs in source order, cut at fifty. */
  function ScrapedJobs(central: seq<CentralSource>, states: seq<StateSource>, o: ScrapeOracles, now: Millis): (r: seq<InsertJob>)
    ensures |r| <= MaxJobs
  {
    Seqs.Prefix(AllCandidates(Visitable(central, states), o, now), MaxJobs)
  }

  // ---------------------------------------------------------------- the scraping loops

  /** One element's turn: with a heading and room left it is pushed, otherwise nothing changes. */
  lemma PushStep(jobs: seq<InsertJob>, origin: Origin, elems: seq<Element>, k: nat, now: Millis, out: seq<InsertJob>)
    requires k < |elems| && out == Seqs.Prefix(jobs + Candidates(origin, elems[..k], now), MaxJobs)
    ensures Seqs.Prefix(jobs + Candidates(origin, elems[..k + 1], now), MaxJobs)
      == if Trim(elems[k].heading) != "" && |out| < MaxJobs then out + [MakeJob(origin, elems[k], now)] else out
  {
    Seqs.FlatMapCappedSnoc(jobs, elems, k, e => Picked(origin, e, now), MaxJobs);
    PickedOne(origin, elems[k], now);
  }

  lemma PickedOne(origin: Origin, e: Element, now: Millis)
    ensures Picked(origin, e, now) == if Trim(e.heading) != "" then [MakeJob(origin, e, now)] else []
  {
  }

  /** `jobElements.each(...)`: push each element with a heading while fewer than fifty jobs are held. */
  method PushJobs(jobs: seq<InsertJob>, origin: Origin, elems: seq<Element>, now: Millis) returns (out: seq<InsertJob>)
    requires |jobs| <= MaxJobs
    ensures out == Seqs.Prefix(jobs + Candidates(origin, elems, now), MaxJobs)
  {
    out := jobs;
    assert jobs + [] == jobs;
    for k := 0 to |elems|
      invariant out == Seqs.Prefix(jobs + Candidates(origin, elems[..k], now), MaxJobs)
    {
      PushStep(jobs, origin, elems, k, now, out);
      var title := Trim(elems[k].heading);
      if title != "" && |out| < MaxJobs {
        out := out + [MakeJob(origin, elems[k], now)];
      }
    }
    assert elems[..|elems|] == elems;
  }

  /** One source's visit: fetch the page and, when it is not empty, push its first few elements. */
  method VisitSource(jobs: seq<InsertJob>, origin: Origin, o: ScrapeOracles, now: Millis) returns (out: seq<InsertJob>)
    requires |jobs| <= MaxJobs
    ensures out == Seqs.Prefix(jobs + SourceCandidates(origin, o, now), MaxJobs)
  {
    var html := FetchWithTimeout(o.respond(UrlOf(origin)));
    if html == "" {
      assert SourceElements(origin, o) == [];
      assert jobs + [] == jobs;
      return jobs;
    }
    var elems := Seqs.Prefix(ElementsOn(origin, o, html), ElementCap(origin));
    out := PushJobs(jobs, origin, elems, now);
  }

  /** After visiting `origins`, fewer than fifty jobs are held. */
  predicate RoomLeft(origins: seq<Origin>, o: ScrapeOracles, now: Millis) {
    |Seqs.Prefix(AllCandidates(origins, o, now), MaxJobs)| < MaxJobs
  }

  /** After `head` and the first `k` of `ss`, fewer than fifty jobs are held. */
  predicate RoomAfter(head: seq<Origin>, ss: seq<Origin>, k: nat, o: ScrapeOracles, now: Millis) {
    k <= |ss| && RoomLeft(head + ss[..k], o, now)
  }

  /** `RoomAfter` as a predicate on the number of sources visited. */
  function RoomPred(head: seq<Origin>, ss: seq<Origin>, o: ScrapeOracles, now: Millis): nat -> bool {
    (k: nat) => RoomAfter(head, ss, k, o, now)
  }

  /**
   * How many of `ss`, from the `k`-th on, the state loop reaches: it goes on while fewer than
   * fifty jobs are held and sources remain.
   */
  function Reached(head: seq<Origin>, ss: seq<Origin>, k: nat, o: ScrapeOracles, now: Millis): (r: nat)
    requires k <= |ss|
    ensures k <= r <= |ss|
  {
    Seqs.FirstNot(RoomPred(head, ss, o, now), k, |ss|)
  }

  /** The loop reaches the first source after which fifty jobs are held, and none before it stops. */
  lemma ReachedIsFirstFull(head: seq<Origin>, ss: seq<Origin>, o: ScrapeOracles, now: Millis)
    ensures var r := Reached(head, ss, 0, o, now);
      && (r < |ss| ==> !RoomAfter(head, ss, r, o, now))
      && forall i :: 0 <= i < r ==> RoomPred(head, ss, o, now)(i)
  {
    Seqs.FirstNotIsFirst(RoomPred(head, ss, o, now), 0, |ss|);
  }

  /** Visiting one more source extends the capped list of offered jobs by that source's, capped again. */
  lemma VisitStep(head: seq<Origin>, ss: seq<Origin>, k: nat, o: ScrapeOracles, now: Millis, jobs: seq<InsertJob>)
    requires k < |ss| && jobs == Seqs.Prefix(AllCandidates(head + ss[..k], o, now), MaxJobs)
    ensures Seqs.Prefix(jobs + SourceCandidates(ss[k], o, now), MaxJobs)
      == Seqs.Prefix(AllCandidates(head + ss[..k + 1], o, now), MaxJobs)
  {
    Seqs.FlatMapCapStep(head, ss, k, origin => SourceCandidates(origin, o, now), MaxJobs);
  }

  /** Once fifty jobs are held, the sources not visited would have added nothing. */
  lemma FullStaysFull(head: seq<Origin>, ss: seq<Origin>, k: nat, o: ScrapeOracles, now: Millis)
    requires k <= |ss| && |Seqs.Prefix(AllCandidates(head + ss[..k], o, now), MaxJobs)| == MaxJobs
    ensures Seqs.Prefix(AllCandidates(head + ss, o, now), MaxJobs) == Seqs.Prefix(AllCandidates(head + ss[..k], o, now), MaxJobs)
  {
    Seqs.FlatMapCapFull(head, ss, k, origin => SourceCandidates(origin, o, now), MaxJobs);
  }

  /** The central loop: every source is visited, whatever the number of jobs held. */
  method VisitAll(cs: seq<Origin>, o: ScrapeOracles, now: Millis) returns (jobs: seq<InsertJob>, fetched: seq<string>)
    ensures jobs == Seqs.Prefix(AllCandidates(cs, o, now), MaxJobs)
    ensures fetched == Urls(cs)
  {
    jobs := [];
    fetched := [];
    for k := 0 to |cs|
      invariant jobs == Seqs.Prefix(AllCandidates([] + cs[..k], o, now), MaxJobs)
      invariant fetched == Urls(cs[..k])
    {
      VisitStep([], cs, k, o, now, jobs);
      UrlsSnoc(cs, k);
      fetched := fetched + [UrlOf(cs[k])];
      jobs := VisitSource(jobs, cs[k], o, now);
    }
    assert [] + cs[..|cs|] == cs;
  }

  /**
   * The state loop: before each source it stops once fifty jobs are held. `visited` sources were
   * reached; the loop stopped early exactly when the cap had been met.
   */
  method VisitUntilFull(jobs0: seq<InsertJob>, ghost head: seq<Origin>, ss: seq<Origin>, o: ScrapeOracles, now: Millis)
    returns (jobs: seq<InsertJob>, fetched: seq<string>, visited: nat)
    requires jobs0 == Seqs.Prefix(AllCandidates(head, o, now), MaxJobs)
    ensures jobs == Seqs.Prefix(AllCandidates(head + ss, o, now), MaxJobs)
    ensures visited <= |ss| && fetched == Urls(ss[..visited])
    ensures visited == Reached(head, ss, 0, o, now)
  {
    jobs := jobs0;
    fetched := [];
    visited := 0;
    assert head + ss[..0] == head;
    while visited < |ss|
      invariant visited <= |ss|
      invariant jobs == Seqs.Prefix(AllCandidates(head + ss[..visited], o, now), MaxJobs)
      invariant fetched == Urls(ss[..visited])
      invariant Reached(head, ss, visited, o, now) == Reached(head, ss, 0, o, now)
    {
      if |jobs| >= MaxJobs {
        break;
      }
      assert RoomAfter(head, ss, visited, o, now);
      assert Reached(head, ss, visited, o, now) == Reached(head, ss, visited + 1, o, now);
      VisitStep(head, ss, visited, o, now, jobs);
      UrlsSnoc(ss, visited);
      fetched := fetched + [UrlOf(ss[visited])];
      jobs := VisitSource(jobs, ss[visited], o, now);
      visited := visited + 1;
    }
    if visited < |ss| {
      assert !RoomAfter(head, ss, visited, o, now);
      FullStaysFull(head, ss, visited, o, now);
    } else {
      assert ss[..visited] == ss;
    }
  }

  /**
   * `scrapeGovernmentJobs` over the given tables. `fetched` lists the URLs requested, in order;
   * `statesVisited` is how many state sources were reached before the fifty-job cap stopped the loop.
   */
  method ScrapeSources(central: seq<CentralSource>, states: seq<StateSource>, o: ScrapeOracles, now: Millis)
    returns (jobs: seq<InsertJob>, fetched: seq<string>, statesVisited: nat)
    ensures jobs == ScrapedJobs(central, states, o, now)
    ensures var cs := Centrals(Seqs.Prefix(central, SourcesPerTable));
      var ss := States(Seqs.Prefix(states, SourcesPerTable));
      && statesVisited <= |ss|
      && fetched == Urls(cs) + Urls(ss[..statesVisited])
      && statesVisited == Reached(cs, ss, 0, o, now)
  {
    var cs := Centrals(Seqs.Prefix(central, SourcesPerTable));
    var ss := States(Seqs.Prefix(states, SourcesPerTable));
    var centralJobs, centralFetched := VisitAll(cs, o, now);
    var stateFetched;
    jobs, stateFetched, statesVisited := VisitUntilFull(centralJobs, cs, ss, o, now);
    fetched := centralFetched + stateFetched;
  }

  /** `scrapeGovernmentJobs`. */
  method ScrapeGovernmentJobs(o: ScrapeOracles, now: Millis) returns (jobs: seq<InsertJob>, fetched: seq<string>)
    ensures jobs == ScrapedJobs(OfficialCentral, OfficialStates, o, now)
    ensures |jobs| <= MaxJobs
  {
    var visited;
    jobs, fetched, visited := ScrapeSources(OfficialCentral, OfficialStates, o, now);
  }

  // ---------------------------------------------------------------- properties of a run

  /** A source's candidate is made from one of its elements that has a heading. */
  lemma SourceCandidateOrigin(origin: Origin, o: ScrapeOracles, now: Millis, j: InsertJob)
    requires j in SourceCandidates(origin, o, now)
    ensures exists e: Element :: Trim(e.heading) != "" && j == MakeJob(origin, e, now)
  {
    var elems := SourceElements(origin, o);
    Seqs.FlatMapOrigin(elems, e => Picked(origin, e, now), j);
    var k :| 0 <= k < |elems| && j in Picked(origin, elems[k], now);
    PickedIsMade(origin, elems[k], now, j);
  }

  /** The one job an element gives is made from it, and only when it has a heading. */
  lemma PickedIsMade(origin: Origin, e: Element, now: Millis, j: InsertJob)
    requires j in Picked(origin, e, now)
    ensures Trim(e.heading) != "" && j == MakeJob(origin, e, now)
  {
  }

  /** Every candidate is made from an element with a heading of one of the visited sources. */
  lemma CandidateOrigin(origins: seq<Origin>, o: ScrapeOracles, now: Millis, j: InsertJob)
    requires j in AllCandidates(origins, o, now)
    ensures exists i, e: Element :: 0 <= i < |origins| && Trim(e.heading) != "" && j == MakeJob(origins[i], e, now)
  {
    Seqs.FlatMapOrigin(origins, origin => SourceCandidates(origin, o, now), j);
    var i :| 0 <= i < |origins| && j in SourceCandidates(origins[i], o, now);
    SourceCandidateOrigin(origins[i], o, now, j);
  }

  /**
   * Every scraped job has a non-empty title of at most 100 characters, full-time type and
   * "Varies" salary, and the name of a visited source as its company.
   */
  lemma ScrapedJobShape(central: seq<CentralSource>, states: seq<StateSource>, o: ScrapeOracles, now: Millis, j: InsertJob)
    requires j in ScrapedJobs(central, states, o, now)
    ensures 0 < |j.title| <= 100 && j.jobType == "Full-time" && j.salary == Some("Varies")
    ensures exists origin :: origin in Visitable(central, states) && j.company == NameOf(origin)
    ensures j.location == "India" || exists s :: s in Seqs.Prefix(states, SourcesPerTable) && j.location == s.state
    ensures j.deadline == Dates.DeadlineAfter(now, CentralDeadlineDays) || j.deadline == Dates.DeadlineAfter(now, StateDeadlineDays)
    ensures (forall origin :: origin in Visitable(central, states) ==> DefaultFits(origin)) ==> |j.description| <= 200
  {
    var origins := Visitable(central, states);
    CandidateOrigin(origins, o, now, j);
    var i, e: Element :| 0 <= i < |origins| && Trim(e.heading) != "" && j == MakeJob(origins[i], e, now);
    VisitableState(central, states, i);
    MadeJobShape(origins[i], e, now, j);
  }

  /** A visitable state source is one of the first ten of the state table. */
  lemma VisitableState(central: seq<CentralSource>, states: seq<StateSource>, i: nat)
    requires i < |Visitable(central, states)|
    ensures Visitable(central, states)[i].State? ==> Visitable(central, states)[i].s in Seqs.Prefix(states, SourcesPerTable)
  {
    var cs := Centrals(Seqs.Prefix(central, SourcesPerTable));
    var ss := States(Seqs.Prefix(states, SourcesPerTable));
    if i >= |cs| {
      assert Visitable(central, states)[i] == ss[i - |cs|];
    }
  }

  /** The fields every made job has, whichever kind of source it comes from. */
  lemma MadeJobShape(origin: Origin, e: Element, now: Millis, j: InsertJob)
    requires Trim(e.heading) != "" && j == MakeJob(origin, e, now)
    ensures 0 < |j.title| <= 100 && j.jobType == "Full-time" && j.salary == Some("Varies")
    ensures j.company == NameOf(origin)
    ensures j.location == "India" || (origin.State? && j.location == origin.s.state)
    ensures j.deadline == Dates.DeadlineAfter(now, CentralDeadlineDays) || j.deadline == Dates.DeadlineAfter(now, StateDeadlineDays)
    ensures DefaultFits(origin) ==> |j.description| <= 200
  {
  }

  /** Short names and kinds in the visited part of the tables make every fallback fit. */
  lemma DefaultsFit(central: seq<CentralSource>, states: seq<StateSource>)
    requires forall c :: c in Seqs.Prefix(central, SourcesPerTable) ==> |c.kind| + |c.name| <= 172
    requires forall s :: s in Seqs.Prefix(states, SourcesPerTable) ==> |s.name| <= 151
    ensures forall origin :: origin in Visitable(central, states) ==> DefaultFits(origin)
  {
    var cs := Seqs.Prefix(central, SourcesPerTable);
    var ss := Seqs.Prefix(states, SourcesPerTable);
    forall origin | origin in Visitable(central, states)
      ensures DefaultFits(origin)
    {
      var k :| 0 <= k < |Visitable(central, states)| && Visitable(central, states)[k] == origin;
      if k < |cs| {
        assert origin == Central(cs[k]) && cs[k] in cs;
      } else {
        assert origin == State(ss[k - |cs|]) && ss[k - |cs|] in ss;
      }
    }
  }

  /** The first ten official central sources have short names and kinds. */
  lemma OfficialCentralShort()
    ensures forall c :: c in Seqs.Prefix(OfficialCentral, SourcesPerTable) ==> |c.kind| + |c.name| <= 172
  {
    var cs := Seqs.Prefix(OfficialCentral, SourcesPerTable);
    assert forall i :: 0 <= i < |cs| ==> |cs[i].kind| + |cs[i].name| <= 30;
  }

  /** The first ten official state sources have short names. */
  lemma OfficialStatesShort()
    ensures forall s :: s in Seqs.Prefix(OfficialStates, SourcesPerTable) ==> |s.name| <= 151
  {
    var ss := Seqs.Prefix(OfficialStates, SourcesPerTable);
    assert forall i :: 0 <= i < |ss| ==> |ss[i].name| <= 30;
  }

  /** The visited official sources all have fallback descriptions of at most 200 characters. */
  lemma OfficialDefaultsFit()
    ensures forall origin :: origin in Visitable(OfficialCentral, OfficialStates) ==> DefaultFits(origin)
  {
    OfficialCentralShort();
    OfficialStatesShort();
    DefaultsFit(OfficialCentral, OfficialStates);
  }

  /** With the official tables, every scraped description has at most 200 characters. */
  lemma OfficialDescriptionsBounded(o: ScrapeOracles, now: Millis, j: InsertJob)
    requires j in ScrapedJobs(OfficialCentral, OfficialStates, o, now)
    ensures |j.description| <= 200
  {
    OfficialDefaultsFit();
    ScrapedJobShape(OfficialCentral, OfficialStates, o, now, j);
  }

  /** When every request fails or returns an empty body, nothing is scraped. */
  lemma NoPagesNoJobs(central: seq<CentralSource>, states: seq<StateSource>, o: ScrapeOracles, now: Millis)
    requires forall url :: FetchWithTimeout(o.respond(url)) == ""
    ensures ScrapedJobs(central, states, o, now) == []
  {
    var origins := Visitable(central, states);
    forall i | 0 <= i < |origins|
      ensures SourceCandidates(origins[i], o, now) == []
    {
      assert SourceElements(origins[i], o) == [];
    }
    Seqs.FlatMapNone(origins, origin => SourceCandidates(origin, o, now));
  }

  // ---------------------------------------------------------------- storing the jobs

  /** `storage.createJob` for each job in turn, the k-th under id `ids(k)`. */
  function CreateAll(om: OrderedMaps.OMap<Job>, js: seq<InsertJob>, ids: nat -> string, now: Millis): (r: OrderedMaps.OMap<Job>)
    requires om.Valid()
    ensures r.Valid()
  {
    if js == [] then om
    else CreateAll(om, js[..|js| - 1], ids, now).Set(ids(|js| - 1), Job(ids(|js| - 1), js[|js| - 1], now))
  }

  /** The ids of the first `n` saves, in order. */
  function IdList(ids: nat -> string, n: nat): (r: seq<string>)
    ensures |r| == n && forall k :: 0 <= k < n ==> r[k] == ids(k)
  {
    if n == 0 then [] else IdList(ids, n - 1) + [ids(n - 1)]
  }

  /**
   * With fresh, distinct ids, saving adds exactly the given jobs: the k-th under `ids(k)`, after
   * the existing keys and in list order, and every job already stored keeps its value.
   */
  lemma {:induction false} CreateAllAdds(om: OrderedMaps.OMap<Job>, js: seq<InsertJob>, ids: nat -> string, now: Millis)
    requires om.Valid()
    requires forall k, l :: 0 <= k < l < |js| ==> ids(k) != ids(l)
    requires forall k :: 0 <= k < |js| ==> ids(k) !in om.m
    ensures CreateAll(om, js, ids, now).keys == om.keys + IdList(ids, |js|)
    ensures forall k :: 0 <= k < |js| ==>
      ids(k) in CreateAll(om, js, ids, now).m && CreateAll(om, js, ids, now).m[ids(k)] == Job(ids(k), js[k], now)
    ensures forall x :: x in om.m ==> x in CreateAll(om, js, ids, now).m && CreateAll(om, js, ids, now).m[x] == om.m[x]
  {
    if js != [] {
      var n := |js|;
      var front := js[..n - 1];
      CreateAllAdds(om, front, ids, now);
      var rp := CreateAll(om, front, ids, now);
      NextIdFresh(om, rp, ids, n);
      NextKeys(om, rp, ids, n, Job(ids(n - 1), js[n - 1], now));
      NextValues(om, rp, js, ids, now);
    }
  }

  /** The id of the next save is not yet a key of the map built by the earlier saves. */
  lemma NextIdFresh(om: OrderedMaps.OMap<Job>, rp: OrderedMaps.OMap<Job>, ids: nat -> string, n: nat)
    requires om.Valid() && rp.Valid() && n > 0
    requires forall k :: 0 <= k < n - 1 ==> ids(k) != ids(n - 1)
    requires ids(n - 1) !in om.m
    requires rp.keys == om.keys + IdList(ids, n - 1)
    ensures ids(n - 1) !in rp.m
  {
  }

  /** A save under a fresh id appends that id to the key order. */
  lemma NextKeys(om: OrderedMaps.OMap<Job>, rp: OrderedMaps.OMap<Job>, ids: nat -> string, n: nat, v: Job)
    requires rp.Valid() && n > 0 && ids(n - 1) !in rp.m
    requires rp.keys == om.keys + IdList(ids, n - 1)
    ensures rp.Set(ids(n - 1), v).keys == om.keys + IdList(ids, n)
  {
    assert IdList(ids, n) == IdList(ids, n - 1) + [ids(n - 1)];
    assert (om.keys + IdList(ids, n - 1)) + [ids(n - 1)] == om.keys + (IdList(ids, n - 1) + [ids(n - 1)]);
  }

  /** The last save of `CreateAllAdds`, given what the earlier ones did. */
  lemma NextValues(om: OrderedMaps.OMap<Job>, rp: OrderedMaps.OMap<Job>, js: seq<InsertJob>, ids: nat -> string, now: Millis)
    requires rp.Valid() && js != []
    requires ids(|js| - 1) !in rp.m
    requires forall k :: 0 <= k < |js| - 1 ==> ids(k) != ids(|js| - 1)
    requires ids(|js| - 1) !in om.m
    requires forall k :: 0 <= k < |js| - 1 ==> ids(k) in rp.m && rp.m[ids(k)] == Job(ids(k), js[k], now)
    requires forall x :: x in om.m ==> x in rp.m && rp.m[x] == om.m[x]
    ensures var r := rp.Set(ids(|js| - 1), Job(ids(|js| - 1), js[|js| - 1], now));
      && (forall k :: 0 <= k < |js| ==> ids(k) in r.m && r.m[ids(k)] == Job(ids(k), js[k], now))
      && (forall x :: x in om.m ==> x in r.m && r.m[x] == om.m[x])
  {
    var n := |js|;
    var id := ids(n - 1);
    var r := rp.Set(id, Job(id, js[n - 1], now));
    assert r.m == rp.m[id := Job(id, js[n - 1], now)];
    forall k | 0 <= k < n
      ensures ids(k) in r.m && r.m[ids(k)] == Job(ids(k), js[k], now)
    {
      if k < n - 1 {
        assert ids(k) != id;
        assert r.m[ids(k)] == rp.m[ids(k)];
      } else {
        assert k == n - 1 && ids(k) == id;
        assert r.m[id] == Job(id, js[n - 1], now);
      }
    }
    forall x | x in om.m
      ensures x in r.m && r.m[x] == om.m[x]
    {
      assert x != id;
    }
  }

  /** The saving loop of `updateJobsFromOfficialSources`: `storage.createJob` for each job in turn. */
  method StoreAll(store: Storage.MemStorage, scraped: seq<InsertJob>, ids: nat -> string, now: Millis) returns (added: nat)
    requires store.Valid()
    modifies store
    ensures store.Valid()
    ensures added == |scraped|
    ensures store.jobs == CreateAll(old(store.jobs), scraped, ids, now)
    ensures store.profiles == old(store.profiles) && store.documents == old(store.documents)
    ensures store.signatures == old(store.signatures) && store.applications == old(store.applications)
  {
    added := 0;
    for i := 0 to |scraped|
      invariant store.Valid() && added == i
      invariant store.jobs == CreateAll(old(store.jobs), scraped[..i], ids, now)
      invariant store.profiles == old(store.profiles) && store.documents == old(store.documents)
      invariant store.signatures == old(store.signatures) && store.applications == old(store.applications)
    {
      assert scraped[..i + 1][..i] == scraped[..i];
      var _ := store.CreateJob(scraped[i], ids(i), now);
      added := added + 1;
    }
    assert scraped[..|scraped|] == scraped;
  }

  /**
   * `updateJobsFromOfficialSources`: scrapes, then stores every job with the in-memory store.
   * Its `createJob` never throws, so every job is counted.
   */
  method UpdateJobsFromOfficialSources(store: Storage.MemStorage, o: ScrapeOracles, ids: nat -> string, now: Millis)
    returns (added: nat)
    requires store.Valid()
    modifies store
    ensures store.Valid()
    ensures added == |ScrapedJobs(OfficialCentral, OfficialStates, o, now)| && added <= MaxJobs
    ensures store.jobs == CreateAll(old(store.jobs), ScrapedJobs(OfficialCentral, OfficialStates, o, now), ids, now)
    ensures store.profiles == old(store.profiles) && store.documents == old(store.documents)
    ensures store.signatures == old(store.signatures) && store.applications == old(store.applications)
  {
    var scraped, _ := ScrapeGovernmentJobs(o, now);
    added := StoreAll(store, scraped, ids, now);
  }

  /** The first batch visited is UPSC through BARC, in table order. */
  lemma FirstCentralSources()
    ensures |OfficialCentral| == 27 && |OfficialStates| == 32
    ensures Seqs.Prefix(OfficialCentral, SourcesPerTable)[0].name == "UPSC"
    ensures Seqs.Prefix(OfficialCentral, SourcesPerTable)[9].name == "BARC"
    ensures Seqs.Prefix(OfficialStates, SourcesPerTable)[9].name == "Andhra Pradesh PSC"
  {
  }
}
