# StudentJobFinder core, modelled in Dafny

StudentJobFinder helps students find government jobs and keep their application paperwork in one
place. Its server fetches official recruitment portals in round-robin batches of five. It extracts
postings from each page with an AI model, keeps each source's last batch with a bounded
scraping log in an in-memory cache, and saves the jobs to an in-memory store of profiles,
documents, signatures, jobs and applications. Around this pipeline sit several small decisions:
- the zod validators of the shared schema;
- the bearer-token middlewares;
- the `job-tracker` edge function's action dispatch;
- the client's edge-function routing and request headers;
- the document checklist matcher, the login form validator and the page filters.

The model has one Dafny module per source file:
- `Cache`: `server/cache.ts`, as the class `JobCache` over an insertion-ordered map and a log.
- `JobScheduler`: `server/job-scheduler.ts`, with the source registry, `canScrape` and
  `fetchWithRetry` (a loop), the post-processing of the AI reply, and the class `Scheduler` whose
  `ScrapeNextBatch` advances the cursor and writes the cache.
  - `AiExtraction` holds the reply handling shared with the edge scraper: the greedy `[`…`]`
    span, the title/company filter and the cut at five.
- `Storage`: `server/storage.ts`, as the class `MemStorage` over five insertion-ordered maps.
- `Scrapers`: `server/scrapers.ts`. The nested source and element loops with the cap of fifty
  are methods proved against a capped concatenation of per-source candidates.
- `EdgeJobScraper`: `supabase/functions/job-scraper/index.ts`.
- `Schema`: `shared/schema.ts`. The zod schemas are validators from a raw JSON body to a result.
- `AuthMiddleware`: `server/auth-middleware.ts`. The request and response form a class; each
  middleware is specified by a function on its state.
- `JobTracker`: `supabase/functions/job-tracker/index.ts`.
- `QueryClient`: `client/src/lib/queryClient.ts`.
- `Documents`: `client/src/pages/documents.tsx`.
- `AuthPage`: `client/src/pages/auth.tsx`. `AuthForm` has a field for each of the component's four `useState` hooks and one for the value `useAuth()` returns. Logs of the toasts, auth calls and navigations the handlers cause are fields too.
- `JobsPage`: `client/src/pages/jobs.tsx`.
- `ApplicationsPage`: `client/src/pages/applications.tsx`.
- Shared helpers:
  - `Common`: Option and Result.
  - `Strings`: JavaScript's `toLowerCase` on ASCII, `trim`, `substring`, `includes` and
    `startsWith`.
  - `Seqs`: filter, prefix (`slice(0, n)` and `substring(0, n)`) and subsequence.
  - `OrderedMaps`: a JavaScript `Map` with its insertion order.
  - `Dates`: the ISO date of an instant plus a number of days.

Everything outside the program is a parameter:
- the network, robots.txt parsing, the AI model and `JSON.parse`;
- cheerio's element selection;
- the token verifier and the database;
- the clock and fresh ids.

## Model

| member | source | states |
|---|---|---|
| Cache.KeepLast | server/cache.ts:62-65 | The log after trimming is the newest `min(n, len)` entries, in their original order. |
| Cache.KeepLastAppend | server/cache.ts:53-66 | Appending to a log and keeping the last `n` equals keeping the last `n-1` of the old log, then the new entry: the oldest entry goes first and the new one is last. |
| Cache.KeepLastOfCapped | server/cache.ts:53-66 | Trimming after every append gives the same log as trimming once at the end. |
| Cache.JobsInOrderLength | server/cache.ts:30-34 | The concatenation of all entries has the sum of the per-source counts as its length. |
| Cache.JobsInOrderContains | server/cache.ts:30-34 | Every job of every cached source appears in the concatenation. |
| Cache.JobsInOrderFrame | server/cache.ts:30-34 | An entry for a key outside the key order does not change the concatenation. |
| Cache.CachedJobsAfterAdd | server/cache.ts:21-36 | After `addJobs(s, js)`, `getJobs(s)` is exactly `js`: the last write wins. Other sources' results are unchanged, and a source never added yields the empty list. |
| Cache.AddNewSourceAppends | server/cache.ts:21-34 | Adding a new source appends its jobs at the end of `getJobs()`. |
| Cache.JobCache.constructor | server/cache.ts:17-19 | A fresh cache has no entries and an empty log. |
| Cache.JobCache.AddJobs | server/cache.ts:21-27 | The source's entry is replaced, stamped with the current instant, and every other entry and the log stay as they were. |
| Cache.JobCache.GetJobs | server/cache.ts:29-36 | The result is the source's jobs, or the entries concatenated in insertion order. The length of `getJobs()` is the sum of the per-source counts. |
| Cache.JobCache.GetCacheStats | server/cache.ts:42-51 | There is exactly one stats key per cached source, with that entry's job count and timestamp. |
| Cache.JobCache.AddLog | server/cache.ts:53-66 | The new log is old log plus the new entry, cut to its last 50. The cache is unchanged. |
| Cache.JobCache.GetLogs | server/cache.ts:68-70 | The result is the log, never longer than 50. |
| Cache.JobCache.Clear | server/cache.ts:72-74 | The job map is emptied and the log is left alone. |
| JobScheduler.SourceCategoriesAreJobCategories | server/job-scheduler.ts:20-36 | Every registry category is one of `JOB_CATEGORIES`. |
| JobScheduler.CanScrape | server/job-scheduler.ts:50-71 | A source is blocked exactly when robots.txt was fetched OK and the parser answers an explicit `false`. A non-OK response, an unreachable file or no verdict all allow scraping. |
| JobScheduler.FirstDelivered | server/job-scheduler.ts:82-127 | The result is the first attempt that delivers a non-empty OK page; every earlier attempt failed. |
| JobScheduler.Fetched | server/job-scheduler.ts:111-129 | The result is a non-empty page, or `null` exactly when every one of the `maxRetries` attempts failed. |
| JobScheduler.AttemptsMade | server/job-scheduler.ts:82-127 | At most `maxRetries` attempts are made. |
| JobScheduler.Backoff | server/job-scheduler.ts:85-89 | The wait before attempt `k+1` is `initialDelay * 2^k`, one wait per retry. |
| JobScheduler.BackoffDoubles | server/job-scheduler.ts:85-89 | With a positive initial delay, each wait doubles the previous one, so the waits strictly increase. |
| JobScheduler.Pow2Increasing | server/job-scheduler.ts:86 | Powers of two strictly increase. |
| JobScheduler.DefaultBackoff | server/job-scheduler.ts:74-78 | One worked example: with the defaults, the waits are 2000 ms and then 4000 ms. |
| JobScheduler.FetchWithRetry | server/job-scheduler.ts:74-130 | The retry loop returns the `Fetched` page, makes `AttemptsMade` attempts and sleeps the `Backoff` waits. |
| JobScheduler.MapJob | server/job-scheduler.ts:196-211 | Each mapped job meets these rules. Title, company and location are at most 100 characters and trimmed. Location defaults to the source name. Type is at most 50 characters, default "Full-time". Category is the caller's. A missing deadline is now + 60 days. A given string deadline passes through, and a given non-string one comes out as its shown text. Description is at most 200 characters, trimmed, default "Jobs from <source>". Salary is at most 100 characters, default "Varies". |
| JobScheduler.ExtractJobs | server/job-scheduler.ts:133-222 | Extraction yields `[]` when the AI client is missing or the AI call fails. Otherwise the result is the reply's candidates, mapped in order. |
| JobScheduler.ExtractJobsShape | server/job-scheduler.ts:193-211 | A source yields at most five jobs, all in the caller's category. |
| JobScheduler.BatchOf | server/job-scheduler.ts:234-237 | The batch is the registry slice from the cursor, up to five long, without wrap-around. |
| JobScheduler.NextIndex | server/job-scheduler.ts:311 | The cursor after a batch is always below the registry size. It is `i+5` when that is in range, and `(i+5) mod n` when it is not. |
| JobScheduler.Names | server/job-scheduler.ts:238 | The logged names are the batch's source names, in order. |
| JobScheduler.SourceJobs | server/job-scheduler.ts:253-276 | A source yields nothing exactly when robots.txt blocks it or the fetch gives up; otherwise it yields the extracted jobs. |
| JobScheduler.SourceJobsBounded | server/job-scheduler.ts:276 | A source yields at most five jobs. |
| JobScheduler.YieldsAt | server/job-scheduler.ts:253-308 | The k-th yield of a batch is what its k-th source yields, so the sources are processed in order. |
| JobScheduler.ScrapeBatchSources | server/job-scheduler.ts:250-308 | The batch loop writes each source's yield to the cache in source order, leaves the log alone, and returns the number of `createJob` calls that did not throw. |
| JobScheduler.ApplyWrites | server/job-scheduler.ts:278-279 | The cache writes keep the ordered map well formed. |
| JobScheduler.WritesBounded | server/job-scheduler.ts:278-291 | Each cache write is a batch source with one to five jobs. There are no more writes than sources, and at most `5 * sources` `createJob` calls. |
| JobScheduler.NoYieldNoWrites | server/job-scheduler.ts:278 | Sources that yield nothing cause no cache write. |
| JobScheduler.BlockedBatchWritesNothing | server/job-scheduler.ts:256-262 | A batch whose every source robots.txt blocks writes nothing to the cache. |
| JobScheduler.RoundRobinCycle | server/job-scheduler.ts:234-311 | From cursor 0, three batches cover the fifteen sources exactly once, in order, and return to 0. |
| JobScheduler.ShortBatchWithoutWrap | server/job-scheduler.ts:234-311 | One worked example: with seven sources, the batch at 5 is only sources 5 and 6, and the next cursor is 3. |
| JobScheduler.Scheduler.constructor | server/job-scheduler.ts:224 | The cursor starts at 0 over the registry. |
| JobScheduler.Scheduler.ScrapeNextBatch | server/job-scheduler.ts:226-329 | Without an AI client, one "failed" log entry is added and nothing else changes. Otherwise the batch's yields are written to the cache in source order, the cursor advances to `NextIndex`, and one "success" log entry is added. That entry counts the `createJob` calls that did not throw. |
| JobScheduler.ProcessSource | server/job-scheduler.ts:253-307 | One source's turn writes the cache only when it yields jobs. It makes one `createJob` call per job and counts those that return. |
| JobScheduler.SaveJobs | server/job-scheduler.ts:282-291 | The save loop counts the calls that did not throw, never more than the number of jobs. |
| JobScheduler.SavedCallsIsCount | server/job-scheduler.ts:282-291 | Counting saves per write equals counting over all calls of the batch. |
| JobScheduler.EveryCreateCounted | server/job-scheduler.ts:283-287 | When `createJob` never throws, the logged count is the number of cached jobs. |
| AiExtraction.OrElse | server/job-scheduler.ts:196-210 | `String(v \|\| d)` is the value when it is truthy and the fallback otherwise. |
| AiExtraction.FindJsonArray | server/job-scheduler.ts:173-177 | A span exists iff some `[` precedes some `]`. The span runs from the first `[` to the last `]`. |
| AiExtraction.Candidates | server/job-scheduler.ts:193-195 | The candidates are the first five entries with a truthy title and company, in order. |
| AiExtraction.ReplyCandidates | server/job-scheduler.ts:172-195 | The candidates are `[]` without a span, or when the span does not parse to an array. Otherwise they are the filtered and cut entries. |
| AiExtraction.NoBracketNoJobs | server/job-scheduler.ts:173-177 | A reply without `[` yields nothing, whatever the parser says. |
| AiExtraction.SixEntriesKeepFive | server/job-scheduler.ts:195 | One worked example: six titled entries yield exactly the first five. |
| Dates.DayOfPlusDays | server/job-scheduler.ts:204 | Adding whole days of milliseconds moves the UTC day by exactly that many days. |
| Dates.DeadlineAfterIsDayOffset | server/job-scheduler.ts:202-206 | The default deadline is the ISO date of the UTC day lying exactly `days` days after the day of `now`. |
| Dates.EpochDate | server/job-scheduler.ts:205-206 | One worked example: day 0 is 1970-01-01. |
| Dates.LeapDay2024 | server/job-scheduler.ts:205-206 | One worked example: day 19782 is 2024-02-29. |
| Storage.DocumentsOf | server/storage.ts:123-127 | The result is exactly the student's documents, in insertion order. |
| Storage.ApplicationsOf | server/storage.ts:207-211 | The result is exactly the student's applications, in insertion order. |
| Storage.FindSignature | server/storage.ts:145-149 | The result is none iff the student has no signature; otherwise it is the student's first signature in insertion order. |
| Storage.WithoutSignatureOf | server/storage.ts:153-156 | Deleting the found signature keeps the map well formed. |
| Storage.SavedSignatures | server/storage.ts:151-166 | Saving a signature keeps the map well formed. |
| Storage.WithoutSignatureOfClears | server/storage.ts:151-156 | With one signature per student, deleting the one found leaves none of that student's and changes nothing else. |
| Storage.SaveSignatureReplaces | server/storage.ts:151-166 | After a save, the new signature is the student's only one and other students' signatures are unchanged. One signature per student is preserved. |
| Storage.SearchIn | server/storage.ts:177-189 | The search returns an order-preserving subsequence of the jobs: exactly those matching the query, type and category. |
| Storage.SearchUnrestrictedIsAll | server/storage.ts:177-189 | An empty query with type and category absent or "all" returns every job. |
| Storage.SearchResultsContainQuery | server/storage.ts:180-184 | Each result contains a non-empty query, case-insensitively, in its title, company or description. |
| Storage.MemStorage.constructor | server/storage.ts:52-79 | A fresh store holds exactly the blank default profile "default-student-id", and no other records. |
| Storage.MemStorage.GetProfile | server/storage.ts:82-84 | The result is the profile stored under the id, if any. |
| Storage.MemStorage.GetDefaultProfile | server/storage.ts:86-89 | The result is the first inserted profile, which is the seeded default. |
| Storage.MemStorage.CreateProfile | server/storage.ts:91-102 | The new profile is stored under the fresh id with `createdAt == updatedAt`. The other maps are unchanged. |
| Storage.MemStorage.UpdateProfile | server/storage.ts:104-116 | A missing id fails with "Profile not found" and changes nothing. Otherwise the supplied fields are overridden, the id and `createdAt` are kept, and `updatedAt` is refreshed. |
| Storage.MemStorage.GetDocument | server/storage.ts:119-121 | The result is the document stored under the id, if any. |
| Storage.MemStorage.GetDocumentsByStudent | server/storage.ts:123-127 | The result is the student's documents, in insertion order. |
| Storage.MemStorage.CreateDocument | server/storage.ts:129-138 | The new document is stored under the fresh id, uploaded now. |
| Storage.MemStorage.DeleteDocument | server/storage.ts:140-142 | The result is true iff the id was present. Afterwards the id is absent, and the other documents keep their values and order. |
| Storage.MemStorage.GetSignature | server/storage.ts:145-149 | The result is none iff the student has no signature; otherwise it is a stored signature of that student, the first in insertion order. |
| Storage.MemStorage.SaveSignature | server/storage.ts:151-166 | The student's old signature is dropped, then the new one is stored under the fresh id. |
| Storage.MemStorage.GetJob | server/storage.ts:169-171 | The result is the job stored under the id, if any. |
| Storage.MemStorage.GetAllJobs | server/storage.ts:173-175 | The result is every job, in insertion order. |
| Storage.MemStorage.SearchJobs | server/storage.ts:177-189 | The result is `SearchIn` over the stored jobs, and holds every matching job. |
| Storage.MemStorage.CreateJob | server/storage.ts:191-200 | The new job is stored under the fresh id; it never fails. |
| Storage.MemStorage.GetApplication | server/storage.ts:203-205 | The result is the application stored under the id, if any. |
| Storage.MemStorage.GetApplicationsByStudent | server/storage.ts:207-211 | The result is the student's applications, in insertion order. |
| Storage.MemStorage.CreateApplication | server/storage.ts:213-222 | The new application is stored under the fresh id, applied now. |
| Storage.MemStorage.UpdateApplication | server/storage.ts:224-235 | A missing id fails with "Application not found" and changes nothing. Otherwise the updates are merged in. |
| Storage.SeededDefaultProfile | server/storage.ts:63-78 | The seeded profile map is well formed, with the blank default profile first. |
| Scrapers.AnyIncluded | server/scrapers.ts:215 | `some(d => url.includes(d))` holds iff some domain is a substring. |
| Scrapers.IsBlacklistedSource | server/scrapers.ts:214-216 | A URL is blacklisted iff a blacklisted domain is a substring of it. |
| Scrapers.BlacklistMatchesInsideUrl | server/scrapers.ts:6-13 | One worked example: a page deep inside a blacklisted site is refused. |
| Scrapers.FetchWithTimeout | server/scrapers.ts:87-107 | A non-empty result is the body of an OK response. |
| Scrapers.MakeJob | server/scrapers.ts:130-178 | A pushed job's title is the trimmed heading cut to 100 characters. Its company is the source name, its type "Full-time" and its salary "Varies". Its description is at most 200 characters or the default text. Central jobs get location "India" and a 60-day deadline; state jobs get the source's state and a 45-day deadline. |
| Scrapers.Picked | server/scrapers.ts:133 | An element gives a job iff its heading is non-empty. |
| Scrapers.SourceElements | server/scrapers.ts:123-126 | At most 5 elements of a central page and 3 of a state page are used. |
| Scrapers.Centrals | server/scrapers.ts:115 | The central sources are kept in table order. |
| Scrapers.States | server/scrapers.ts:151 | The state sources are kept in table order. |
| Scrapers.Urls | server/scrapers.ts:117 | The fetched URLs are the sources' URLs, in order. |
| Scrapers.ScrapedJobs | server/scrapers.ts:109-190 | Scraping never returns more than 50 jobs. |
| Scrapers.PushStep | server/scrapers.ts:128-144 | One element's turn extends the capped job list by that element's job. |
| Scrapers.PushJobs | server/scrapers.ts:128-144 | The element loop pushes each element with a heading while fewer than 50 jobs are held. |
| Scrapers.VisitSource | server/scrapers.ts:116-144 | One source's visit adds its candidates to the list, capped at 50. |
| Scrapers.Reached | server/scrapers.ts:151-152 | The state loop stops within the table. |
| Scrapers.ReachedIsFirstFull | server/scrapers.ts:151-152 | The state loop stops at the first source after which 50 jobs are held, and not before. |
| Scrapers.VisitStep | server/scrapers.ts:151-184 | Visiting one more source extends the capped list by that source's candidates. |
| Scrapers.FullStaysFull | server/scrapers.ts:152 | Once 50 jobs are held, the unvisited sources would add nothing. |
| Scrapers.VisitAll | server/scrapers.ts:115-148 | The central loop fetches every source in order, and the job list is the capped concatenation of their candidates. |
| Scrapers.VisitUntilFull | server/scrapers.ts:151-184 | The state loop breaks at the first full point, fetching exactly the sources before it. The job list still equals the capped concatenation over all sources. |
| Scrapers.ScrapeSources | server/scrapers.ts:109-190 | Only the first ten central and the first ten state sources are visited, central ones first. The result is `ScrapedJobs`. |
| Scrapers.ScrapeGovernmentJobs | server/scrapers.ts:109-190 | The official tables give `ScrapedJobs`, at most 50 jobs. |
| Scrapers.SourceCandidateOrigin | server/scrapers.ts:128-143 | Every candidate is made from an element with a heading. |
| Scrapers.CandidateOrigin | server/scrapers.ts:115-184 | Every candidate comes from an element with a heading of a visited source. |
| Scrapers.ScrapedJobShape | server/scrapers.ts:130-178 | Each scraped job has a title of 1 to 100 characters, type "Full-time" and salary "Varies". Its company names a visited source. Its location is "India" or a visited state. Its deadline is 60 or 45 days out. When every visited source's fallback text fits in 200 characters, so does the description. |
| Scrapers.OfficialDefaultsFit | server/scrapers.ts:16-80 | Every visited official source has a fallback description of at most 200 characters. |
| Scrapers.OfficialDescriptionsBounded | server/scrapers.ts:130-178 | With the official tables, every scraped job's description has at most 200 characters. |
| Scrapers.NoPagesNoJobs | server/scrapers.ts:101-118 | When every fetch fails or is empty, nothing is scraped. |
| Scrapers.CreateAll | server/scrapers.ts:198-205 | Saving the jobs keeps the job map well formed. |
| Scrapers.CreateAllAdds | server/scrapers.ts:197-205 | With fresh, distinct ids, exactly the given jobs are added. The k-th is stored under the k-th id, the new ids follow the old keys in list order, and every stored job keeps its value. |
| Scrapers.StoreAll | server/scrapers.ts:197-205 | The saving loop counts one per job, stores each job, and touches no other map. |
| Scrapers.UpdateJobsFromOfficialSources | server/scrapers.ts:192-212 | The count returned is the number of scraped jobs, at most 50. Exactly those jobs are added to the store. |
| Scrapers.FirstCentralSources | server/scrapers.ts:16-80 | One worked example: the tables have 27 central and 32 state sources. The first batch visited runs from UPSC to BARC, and the tenth state is Andhra Pradesh PSC. |
| EdgeJobScraper.SourceCategoriesAreJobCategories | supabase/functions/job-scraper/index.ts:21-27 | The registry's categories are all `JOB_CATEGORIES`. |
| EdgeJobScraper.MapJob | supabase/functions/job-scraper/index.ts:53-62 | Each row's fields follow these rules, without trimming. Title, company and location are at most 100 characters, and location defaults to the source. Type is at most 50 characters, default "Full-time". Category is the caller's. A missing deadline is now + 60 days. A given string deadline passes through, and a given non-string one comes out as its shown text. Description is at most 200 characters, default "". Salary is at most 100 characters, default "Varies". |
| EdgeJobScraper.ExtractJobs | supabase/functions/job-scraper/index.ts:29-67 | The result is `[]` when the AI call fails. Otherwise it is the reply's first five titled entries, mapped in order. |
| EdgeJobScraper.ExtractJobsShape | supabase/functions/job-scraper/index.ts:50-58 | At most five rows come from a page, all in the caller's category. |
| EdgeJobScraper.TitlesAreNotTrimmed | supabase/functions/job-scraper/index.ts:54 | One worked example: a padded title is kept with its spaces. |
| EdgeJobScraper.PageText | supabase/functions/job-scraper/index.ts:78-80 | A failed request gives `""`. |
| EdgeJobScraper.SourceJobs | supabase/functions/job-scraper/index.ts:78-84 | An empty page gives no rows; otherwise the rows are the extracted jobs. |
| EdgeJobScraper.AllJobsBounded | supabase/functions/job-scraper/index.ts:77-89 | At most five rows come from each source. |
| EdgeJobScraper.InsertedCategories | supabase/functions/job-scraper/index.ts:77-89 | Every row carries the category of a source of the run. |
| EdgeJobScraper.NoPagesNoRows | supabase/functions/job-scraper/index.ts:78-82 | When no page can be fetched, nothing is inserted. |
| EdgeJobScraper.ScrapeAll | supabase/functions/job-scraper/index.ts:75-92 | The sources are processed in registry order. `totalJobs` equals the number of rows extracted. |
| EdgeJobScraper.InsertRows | supabase/functions/job-scraper/index.ts:86-89 | Every row counts once, whether or not its insert succeeds. |
| EdgeJobScraper.Serve | supabase/functions/job-scraper/index.ts:69-100 | A non-POST request gets 405 and nothing is scraped. A POST reports `jobsAdded` equal to the rows handled. |
| EdgeJobScraper.ReportedAtMost25 | supabase/functions/job-scraper/index.ts:21-94 | A run reports at most 25 rows. |
| Schema.IssuesOf | shared/schema.ts:20-31 | A field check reports no issue iff it succeeds. |
| Schema.StringField | shared/schema.ts:24-28 | `z.string()` accepts exactly a string value. |
| Schema.NonEmptyField | shared/schema.ts:21-23 | `z.string().min(1, m)` accepts exactly a non-empty string, and rejects `""` with message `m`. |
| Schema.OptionalField | shared/schema.ts:29-30 | `.optional()` accepts an absent key or a string. |
| Schema.DefaultField | shared/schema.ts:103 | `.default(d)` gives `d` for an absent key. |
| Schema.ParseStudentProfile | shared/schema.ts:20-31 | A profile is accepted iff full name and phone are non-empty, the email is valid under the abstract check, and the field types are right. An empty full name or phone is reported with its message. |
| Schema.EmptyProfilePatch | server/storage.ts:109-113 | An empty partial update changes no profile field. |
| Schema.ParseDocument | shared/schema.ts:58-64 | A document is accepted iff every field is a string and the name is non-empty. An empty name gives "Document name is required". |
| Schema.ParseSignature | shared/schema.ts:76-79 | A signature is accepted iff `dataUrl` is a non-empty string. An empty one gives "Signature data is required". |
| Schema.ParseJob | shared/schema.ts:98-108 | A job is accepted iff title, company and location are non-empty and the types are right. Category defaults to "Central Government"; salary and requirements are optional. |
| Schema.ParseJobRejectsEmpty | shared/schema.ts:99-101 | An empty title, company or location is rejected with that field's message. |
| Schema.ParseStatus | shared/schema.ts:150 | A string names a status iff it is one of the six enum values. |
| Schema.StatusNamesAreEnum | shared/schema.ts:138-150 | Every status has an enum name that parses back to it, and distinct statuses have distinct names. |
| Schema.ParseApplication | shared/schema.ts:145-155 | An application is accepted only with one of the six statuses, and an absent status becomes "pending". |
| Schema.StatusTableMatchesEnum | shared/schema.ts:159-166 | `APPLICATION_STATUSES` lists exactly the enum's values, in the enum's order. |
| AuthMiddleware.TokenOf | server/auth-middleware.ts:25 | The token is the header with its seven-character "Bearer " prefix removed. |
| AuthMiddleware.TokenRoundTrip | server/auth-middleware.ts:21-25 | "Bearer " + a token is accepted as a bearer header, and its token is that token. |
| AuthMiddleware.AfterAuth | server/auth-middleware.ts:9-41 | With no backend, the demo user is set and `next` is called. A missing or non-bearer header gets 401 "Missing authorization token". Either `next` is called once or a 401 is sent, never both. |
| AuthMiddleware.AuthPassesIffVerified | server/auth-middleware.ts:21-40 | With a backend, `next` is called iff the token verifies to a user, and then that user's id and email are set. Otherwise a 401 is sent and the identity is untouched. |
| AuthMiddleware.AuthRejections | server/auth-middleware.ts:28-40 | A thrown check gives 401 "Authentication failed". An error or a missing user gives 401 "Invalid or expired token". |
| AuthMiddleware.AuthChecksTokenAfterPrefix | server/auth-middleware.ts:25-35 | The verifier checks exactly the text after "Bearer ". |
| AuthMiddleware.AfterOptionalAuth | server/auth-middleware.ts:43-75 | The optional middleware never sends a response and calls `next` exactly once. With no backend the demo user is set. Without a bearer header the user id is cleared. |
| AuthMiddleware.OptionalAuthIdentity | server/auth-middleware.ts:58-74 | The identity is cleared without a bearer header, set to a user the check yields, or left unchanged. |
| AuthMiddleware.OptionalAuthSurvivesThrow | server/auth-middleware.ts:63-74 | A check that throws changes only the `next` count. |
| AuthMiddleware.Exchange.constructor | server/auth-middleware.ts:9 | A request starts with no `next` call and no response. |
| AuthMiddleware.Exchange.Next | server/auth-middleware.ts:36 | `next()` is counted once. |
| AuthMiddleware.Exchange.Unauthorized | server/auth-middleware.ts:22 | `res.status(401).json({ error })` records the response. |
| AuthMiddleware.Exchange.AuthMiddleware | server/auth-middleware.ts:9-41 | The step-by-step middleware leaves the state `AfterAuth` describes. |
| AuthMiddleware.Exchange.OptionalAuthMiddleware | server/auth-middleware.ts:43-75 | The step-by-step middleware leaves the state `AfterOptionalAuth` describes. |
| JobTracker.Handle | supabase/functions/job-tracker/index.ts:16-98 | A non-POST request gets 405. An unreadable body gets 500. A missing userId gets 400 "userId required" before any action. Every database call carries the request's userId, and the status is one of 200, 400, 405 or 500. |
| JobTracker.Dispatch | supabase/functions/job-tracker/index.ts:29-94 | The action chain calls the database only for the given user, and answers 200, 400 or 500. |
| JobTracker.ApplyInsertsPending | supabase/functions/job-tracker/index.ts:29-41 | "apply" without a jobId gets 400. A valid apply inserts the user and job with status "pending". |
| JobTracker.UpdateNeedsJobAndStatus | supabase/functions/job-tracker/index.ts:49-59 | "update" gets 400 iff jobId or status is missing. A valid update stamps the current time. |
| JobTracker.GetCases | supabase/functions/job-tracker/index.ts:67-94 | "get" without a jobId falls through to 400 "Invalid action". A lookup error answers 200 with a null application. |
| JobTracker.UnknownActionRejected | supabase/functions/job-tracker/index.ts:94 | Any other action gets 400 "Invalid action" and makes no database call. |
| JobTracker.ServerErrorCauses | supabase/functions/job-tracker/index.ts:22-97 | A 500 comes only from a body that is not JSON, or from a database error on apply, update or getAll. |
| QueryClient.SupabaseUrl | client/src/lib/queryClient.ts:3 | The configured URL is used when it is non-empty, otherwise the built-in one. |
| QueryClient.MapToEdgeFunction | client/src/lib/queryClient.ts:15 | A path containing "/profile" always maps to `<base>/profile`. |
| QueryClient.FirstRoute | client/src/lib/queryClient.ts:15-21 | The chosen route is the first whose substring occurs in the path; none is chosen iff none occurs. |
| QueryClient.MapToEdgeFunctionFollowsRoutes | client/src/lib/queryClient.ts:11-25 | The if-chain equals routing by the first matching entry of the fixed route table, in table order. |
| QueryClient.MapToEdgeFunctionRange | client/src/lib/queryClient.ts:11-25 | The result is one of the seven edge-function URLs or the input path. |
| QueryClient.UnmatchedPathUnchanged | client/src/lib/queryClient.ts:24 | A path matching no route is returned unchanged. |
| QueryClient.Join | client/src/lib/queryClient.ts:65 | Joining no parts gives `""`, and joining one part gives that part. |
| QueryClient.JoinHoldsPart | client/src/lib/queryClient.ts:65 | Every part of the query key occurs in the joined path. |
| QueryClient.ProfileKeyRoutesToProfile | client/src/lib/queryClient.ts:65-66 | A query key with a "/profile" part is fetched from the profile function. |
| QueryClient.WithBearer | client/src/lib/queryClient.ts:39-44 | With a token, `Authorization: Bearer <token>` is set; without one, the headers are left alone. All other headers are kept as given. |
| QueryClient.QueryHeadersCarryBearerIffToken | client/src/lib/queryClient.ts:67-71 | The query headers carry an Authorization header iff a token is present, and then only that one. |
| QueryClient.NotOkMessage | client/src/lib/queryClient.ts:27-32 | The error message is "<status>: " followed by the body, or the status text when the body is empty. |
| QueryClient.StatusBeforeColon | client/src/lib/queryClient.ts:30 | The message up to its first ':' is the status. |
| QueryClient.Settle | client/src/lib/queryClient.ts:78-83 | The result is null iff on401 is "returnNull" and the status is 401. It is data iff the response is OK. Otherwise it fails with the `throwIfResNotOk` message, and a failed fetch is a network failure. |
| QueryClient.UnauthorizedThrows | client/src/lib/queryClient.ts:78-82 | With on401 "throw", a 401 fails with a message that starts "401: ". |
| QueryClient.ApiRequest | client/src/lib/queryClient.ts:34-56 | `apiRequest` sends to the mapped URL with the bearer header added to the caller's headers, and throws on a non-OK answer. |
| QueryClient.QueryFn | client/src/lib/queryClient.ts:59-84 | The query function fetches the joined key's mapped URL and settles by its on401 behaviour. |
| Documents.Lookup | client/src/pages/documents.tsx:50-54 | A table lookup finds nothing iff the key is absent; a result is the value of an entry with that key. |
| Documents.TailRun | client/src/pages/documents.tsx:15 | The result is the longest suffix without '.' or '/', which is what `/\.[^/.]+$/` can remove. |
| Documents.TailRunUnique | client/src/pages/documents.tsx:15 | That suffix length is the only one with those properties. |
| Documents.StripExtension | client/src/pages/documents.tsx:15 | The result is a prefix of the name. If anything is removed, it is exactly one final `.ext` with no '.' or '/' in `ext`. |
| Documents.StripExtensionOf | client/src/pages/documents.tsx:15 | `base.ext` loses exactly `.ext`. |
| Documents.StripExtensionNoDot | client/src/pages/documents.tsx:15 | A name without '.' is kept whole. |
| Documents.PatternKeywords | client/src/pages/documents.tsx:54 | A pattern without a `docPatterns` entry is its own single keyword. |
| Documents.LabelPatterns | client/src/pages/documents.tsx:50 | A label's patterns are its `exactMatches` entry, or none. |
| Documents.AnyKeyword | client/src/pages/documents.tsx:54-59 | The search holds iff some keyword is a substring of the name. |
| Documents.AnyPattern | client/src/pages/documents.tsx:53-60 | The nested search holds iff some keyword of some pattern is a substring of the name. |
| Documents.FallbackKey | client/src/pages/documents.tsx:63 | The fallback key is the trimmed text before the first '/', cut to 10 characters. |
| Documents.MatchesName | client/src/pages/documents.tsx:50-63 | A name matches iff a keyword of one of the label's patterns occurs in it, or it contains the fallback key. |
| Documents.CaseInsensitive | client/src/pages/documents.tsx:15-16 | The result depends only on the lower-cased file name and label. |
| Documents.LowerExtension | client/src/pages/documents.tsx:15 | Lower-casing keeps an extension an extension. |
| Documents.ExtensionIgnored | client/src/pages/documents.tsx:15 | The final `.ext` never takes part in the match. `base.ext` matches as the lower-cased `base` against the lower-cased label, even when `base` holds dots of its own. |
| Documents.ListedKeywordMatches | client/src/pages/documents.tsx:50-60 | For a listed label, any keyword of any of its patterns in the stripped name gives a match. |
| Documents.UnlistedLabelUsesFallback | client/src/pages/documents.tsx:50-63 | For an unlisted label, the result is the fallback-key check. |
| Documents.BlankFallbackMatchesAll | client/src/pages/documents.tsx:63 | An unlisted label with nothing before its '/' matches every file. |
| Documents.AadhaarIsOwnKeyword | client/src/pages/documents.tsx:19-34 | One worked example: "aadhaar" has no `docPatterns` entry, so it is its own keyword. |
| Documents.SignatureLabelIsListed | client/src/pages/documents.tsx:37-47 | The "Signature" label, lower-cased, is listed, and its keywords are signature, sign and sig. |
| Documents.ChecklistLabelsAreListed | client/src/pages/documents.tsx:37-50 | Every checklist label, lower-cased, is a key of `exactMatches`. So no checklist item falls back to the substring test. |
| Documents.SigMatchesSignature | client/src/pages/documents.tsx:14-64 | Any file whose base name contains "sig" satisfies the Signature item. |
| Documents.ChecklistIsRequiredDocuments | client/src/pages/documents.tsx:146 | The checklist labels are exactly `REQUIRED_DOCUMENTS`. |
| Documents.IsUploaded | client/src/pages/documents.tsx:195 | An item is ticked iff some document's name matches it. |
| Documents.Checklist | client/src/pages/documents.tsx:194-206 | There is one tick per checklist label, each true iff some document matches it. |
| Documents.UploadKeepsTicks | client/src/pages/documents.tsx:195 | Uploading another document never clears a tick. |
| AuthPage.ValidateForm | client/src/pages/auth.tsx:18-38 | The email fails iff it is empty or lacks "@". The password fails iff the email passes and it is shorter than 6. The form is valid otherwise. |
| AuthPage.EmailCheckedFirst | client/src/pages/auth.tsx:19-26 | When the email is bad, only the email error is reported, whatever the password. |
| AuthPage.ValidEmailIsNonEmpty | client/src/pages/auth.tsx:18-37 | A valid form has a non-empty email and a password of six or more characters. |
| AuthPage.ValidationToast | client/src/pages/auth.tsx:20-33 | The validation toasts are destructive. |
| AuthPage.AuthForm.constructor | client/src/pages/auth.tsx:11-16 | The form starts in login mode, with empty fields and not loading, under the given `useAuth()` value. |
| AuthPage.AuthForm.HandleSubmit | client/src/pages/auth.tsx:40-69 | An invalid form only shows its toast: no login or signup, and loading unchanged. A valid one makes exactly one call. A successful login says so and navigates to "/", a successful sign-up clears the fields, and an error toasts its message. Loading ends false. |
| AuthPage.AuthForm.HandleToggleAuth | client/src/pages/auth.tsx:71-76 | The toggle throws iff `clearSignupMessage` is not a function, and then nothing changes. Otherwise it flips the mode and clears both fields and the sign-up message. |
| AuthPage.AuthForm.GoToLogin | client/src/pages/auth.tsx:92-103 | The "Go to Login" button exists only while a sign-up message is shown. It throws iff `clearSignupMessage` is not a function, and then nothing changes. Otherwise it sets login mode and clears the fields and the message. |
| AuthPage.ToggleUnderAuthProvider | client/src/hooks/use-auth.ts:87 | Under `AuthProvider` no sign-up message is shown, and the toggle throws and leaves the page in login mode. |
| AuthPage.ToggleUnderIntendedProvider | client/src/pages/auth.tsx:92-103 | Under a provider with a message and `clearSignupMessage`, "Go to Login" hides the message. The toggle then reaches sign-up mode without throwing. |
| JobsPage.FilteredJobs | client/src/pages/jobs.tsx:68-73 | The filter returns exactly the listings whose title or company contains the query case-insensitively, of the chosen type unless "all". |
| JobsPage.FilteredKeepsOrder | client/src/pages/jobs.tsx:68 | The results are an order-preserving subsequence of the listings. |
| JobsPage.EmptySearchShowsAll | client/src/pages/jobs.tsx:68-73 | An empty query with type "all" shows every listing. |
| JobsPage.DescriptionIsNotSearched | client/src/pages/jobs.tsx:69-70 | A listing that matches only in its description is not shown. |
| JobsPage.SearchIgnoresCase | client/src/pages/jobs.tsx:69-70 | A query and its lower-cased form show the same listings. |
| ApplicationsPage.FilterByStatus | client/src/pages/applications.tsx:24-27 | "all" returns the whole list unchanged; any other status returns exactly the applications with it. |
| ApplicationsPage.FilterKeepsOrder | client/src/pages/applications.tsx:24-27 | The filter keeps the list's order. |
| ApplicationsPage.ShortlistedIsAlwaysEmpty | client/src/pages/applications.tsx:52-54 | For applications whose status is one of the schema's six values, the "shortlisted" tab is empty, because that status is not in the union. |
| ApplicationsPage.Tabs | client/src/pages/applications.tsx:46-60 | The "all" count is the list's length and each tab count is at most that. For applications whose status is one of the schema's six values, "shortlisted" is 0. |

## Left out

- Network I/O, timers and sleeps are left out. `fetch`, the AbortController timeouts, the backoff sleeps and the five-minute `setInterval` driver are outside the model. Fetch results are oracles, and the waits are returned values.
- The Gemini calls and their prompts are left out. The reply text is an input, and `JSON.parse`, robots-parser and cheerio selection are oracle functions.
- The random user-agent choice and the request headers sent to portals are left out. The model sees no randomness.
- Logging with `console.log` and `console.error`, and UI toasts other than those `handleSubmit` and `validateForm` show, are left out.
- Clock consistency is left out. Each operation receives one `now`, and the source's separate `Date.now()` calls within a run are all taken as this one instant.
- `randomUUID` ids are left out. Fresh ids are parameters, and `id !in map` is required where freshness matters.
- JobScheduler.CanScrape: the robots URL built with `new URL("/robots.txt", baseUrl)` is not modelled. The robots oracle takes the base URL directly.
- The outer `try`/`catch` blocks are left out. They wrap code that cannot throw in the model, such as `scrapeGovernmentJobs`' outer catch and the scheduler's per-source catch around oracle calls.
- Scrapers.UpdateJobsFromOfficialSources: the `0` returned on an outer error is not modelled. `createJob` never throws in the in-memory store, so every save counts.
- Non-ASCII text is not modelled faithfully. `toLowerCase` is modelled on ASCII letters only, and lengths and `substring` count Dafny characters, not UTF-16 code units.
- Some JavaScript object behaviour is left out:
  - prototype keys such as "constructor" in `Record` lookups;
  - a field set to `undefined` in a partial update;
  - non-string payload fields in the job tracker.
- QueryClient.ApiRequest: `options.headers` given as a `Headers` object or an array of pairs is not modelled, and neither are its other request options. The response JSON is returned undecoded.
- EdgeJobScraper.InsertRows: each insert's own `.catch` is taken to swallow every failure, so the database is not modelled.
- JobTracker.Handle: the database rows are returned undecoded, and `supabase` errors are modelled as one failure value with a message.
- AuthMiddleware.Exchange.AuthMiddleware: a `next()` that throws inside the `try` would reach the catch and send one more 401. `next` is modelled as not throwing.
- JobScheduler.BatchOf: `slice(i, i + 5)` does not wrap around the registry, so a batch that starts near its end is shorter than five. With fifteen sources every batch is full, as `RoundRobinCycle` shows.
- JobScheduler.MapJob: a truthy non-string `deadline` in the AI reply, such as a number, is stored as it is by the source. The model's job rows hold text, so that value comes out as its shown text.
- EdgeJobScraper.MapJob: the same holds for the edge function's rows. A truthy non-string `deadline` is inserted as it is, and the model gives its shown text.
- AuthPage.AuthForm.HandleToggleAuth: no provider in the repository defines `clearSignupMessage`. Where a context supplies it, the model takes it to empty the context's `signupMessage`.
- AuthPage.AuthForm.GoToLogin: the same assumption about `clearSignupMessage` applies.
- ApplicationsPage.ShortlistedIsAlwaysEmpty: the page's applications are modelled with the schema's six statuses. The Supabase-backed storage copies `status` without checking it, and the job-tracker edge function writes any `status` on "update". So at runtime a stored "shortlisted" can reach the page, and then the tab is not empty.
- ApplicationsPage.Tabs: for the same reason, a "shortlisted" count above 0 at runtime is not modelled.
- Concurrency is out of scope. Overlapping runs of `scrapeNextBatch` from the interval and the manual route are not modelled.
- React rendering, the remaining pages and components, the Express routes and the Supabase wrapper modules are not part of this model.

## Findings

| source | as written | input that shows it | evidently intended | confidence | as-written member | corrected member |
|---|---|---|---|---|---|---|
| client/src/pages/auth.tsx:11 | The page reads `signupMessage` and `clearSignupMessage` from `useAuth()`. `AuthProvider` (client/src/hooks/use-auth.ts:87) supplies neither, so the message is always undefined and `clearSignupMessage()` throws a TypeError. | Any click on the login/sign-up toggle under `AuthProvider`: line 72 throws before `setIsLogin`, so the page never leaves login mode. The "Go to Login" button is never rendered. | The provider keeps the sign-up message and supplies `clearSignupMessage`. Then the toggle switches modes, and "Go to Login" clears the message. | high; not executed | AuthPage.ToggleUnderAuthProvider | AuthPage.ToggleUnderIntendedProvider |
