/**
 * The job listings page: its sample listings and the `filteredJobs` filter, a case-insensitive
 * search on title and company combined with an exact job-type choice.
 */
module JobsPage {
  import opened Strings
  import Seqs

  const AllTypes: string := "all"

  datatype ListedJob = ListedJob(
    id: string, title: string, company: string, location: string, jobType: string,
    deadline: string, description: string, salary: string, applied: bool)

  /** The page's built-in listings. */
  const SampleJobs: seq<ListedJob> := [
    ListedJob("1", "Software Engineer", "Tech Solutions Ltd", "Bangalore, India", "Full-time", "2025-11-28",
      "We are seeking a talented Software Engineer to join our team. You will work on cutting-edge projects using modern technologies.",
      "₹8-12 LPA", false),
    ListedJob("2", "Data Analyst", "Analytics Corp", "Hyderabad, India", "Full-time", "2025-12-05",
      "Looking for a skilled Data Analyst to help us make data-driven decisions. Experience with Python and SQL required.",
      "₹6-9 LPA", true),
    ListedJob("3", "Frontend Developer", "WebDev Studios", "Mumbai, India", "Contract", "2025-12-10",
      "Join our creative team to build beautiful and responsive web applications. React and TypeScript expertise needed.",
      "₹7-10 LPA", false),
    ListedJob("4", "Junior Backend Developer", "Cloud Systems", "Pune, India", "Full-time", "2025-12-15",
      "Great opportunity for fresh graduates. Work with Node.js, databases, and cloud technologies.",
      "₹5-7 LPA", false)
  ]

  /** `matchesSearch`: the lower-cased query in the lower-cased title or company. */
  predicate MatchesSearch(job: ListedJob, searchQuery: string) {
    Includes(Lower(job.title), Lower(searchQuery)) || Includes(Lower(job.company), Lower(searchQuery))
  }

  /** `matchesType`: "all", or exactly the job's type. */
  predicate MatchesType(job: ListedJob, filterType: string) {
    filterType == AllTypes || job.jobType == filterType
  }

  /** `jobs.filter(job => matchesSearch && matchesType)`. */
  function FilteredJobs(jobs: seq<ListedJob>, searchQuery: string, filterType: string): (r: seq<ListedJob>)
    ensures forall i :: 0 <= i < |r| ==> r[i] in jobs
    ensures forall i :: 0 <= i < |r| ==>
      Includes(Lower(r[i].title), Lower(searchQuery)) || Includes(Lower(r[i].company), Lower(searchQuery))
    ensures filterType != AllTypes ==> forall i :: 0 <= i < |r| ==> r[i].jobType == filterType
    ensures forall i :: 0 <= i < |jobs| && MatchesSearch(jobs[i], searchQuery) && MatchesType(jobs[i], filterType) ==> jobs[i] in r
  {
    Seqs.Filter(jobs, job => MatchesSearch(job, searchQuery) && MatchesType(job, filterType))
  }

  /** The results keep the listing order: they are a subsequence of the listings. */
  lemma FilteredKeepsOrder(jobs: seq<ListedJob>, searchQuery: string, filterType: string)
    ensures Seqs.IsSubsequence(FilteredJobs(jobs, searchQuery, filterType), jobs)
  {
    Seqs.FilterIsSubsequence(jobs, job => MatchesSearch(job, searchQuery) && MatchesType(job, filterType));
  }

  /** An empty search with every type shows every listing. */
  lemma EmptySearchShowsAll(jobs: seq<ListedJob>)
    ensures FilteredJobs(jobs, "", AllTypes) == jobs
  {
    forall i | 0 <= i < |jobs| ensures MatchesSearch(jobs[i], "") {
      IncludesEmpty(Lower(jobs[i].title));
    }
    Seqs.FilterKeepsAll(jobs, job => MatchesSearch(job, "") && MatchesType(job, AllTypes));
  }

  /** The description is not searched: a job matching only there is not shown. */
  lemma DescriptionIsNotSearched(jobs: seq<ListedJob>, searchQuery: string, filterType: string, job: ListedJob)
    requires !Includes(Lower(job.title), Lower(searchQuery)) && !Includes(Lower(job.company), Lower(searchQuery))
    ensures job !in FilteredJobs(jobs, searchQuery, filterType)
  {
  }

  /** The search ignores case: a query and its lower-cased form show the same listings. */
  lemma SearchIgnoresCase(jobs: seq<ListedJob>, searchQuery: string, filterType: string)
    ensures FilteredJobs(jobs, searchQuery, filterType) == FilteredJobs(jobs, Lower(searchQuery), filterType)
  {
    LowerIdempotent(searchQuery);
    Seqs.FilterSamePredicate(jobs,
      job => MatchesSearch(job, searchQuery) && MatchesType(job, filterType),
      job => MatchesSearch(job, Lower(searchQuery)) && MatchesType(job, filterType));
  }
}
