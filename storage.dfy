/**
 * `MemStorage`: the in-memory store behind the server. Five insertion-ordered maps keyed by
 * record id. Ids (`randomUUID()`) and instants (`new Date()`) are supplied by the caller.
 */
module Storage {
  import opened Common
  import opened Schema
  import opened Strings
  import opened OrderedMaps
  import Seqs

  const DefaultStudentId := "default-student-id"

  /** The seeded profile's fields: every string empty, `photoUrl` the empty string, no profile data. */
  const BlankProfile := InsertStudentProfile("", "", "", "", "", "", "", "", Some(""), None)

  const ProfileNotFound := "Profile not found"
  const ApplicationNotFound := "Application not found"

  /** Every record is stored under its own id. */
  ghost predicate Keyed<V>(om: OMap<V>, idOf: V -> string) {
    forall k :: k in om.m ==> idOf(om.m[k]) == k
  }

  // ---------------------------------------------------------------- lookups by student

  /** `Array.from(docs.values()).filter(d => d.studentId === studentId)`. */
  function DocumentsOf(docs: seq<Document>, studentId: string): (r: seq<Document>)
    ensures Seqs.IsSubsequence(r, docs)
    ensures forall i :: 0 <= i < |r| ==> r[i].info.studentId == studentId
    ensures forall i :: 0 <= i < |docs| && docs[i].info.studentId == studentId ==> docs[i] in r
  {
    Seqs.FilterIsSubsequence(docs, (d: Document) => d.info.studentId == studentId);
    Seqs.Filter(docs, (d: Document) => d.info.studentId == studentId)
  }

  /** `Array.from(apps.values()).filter(a => a.studentId === studentId)`. */
  function ApplicationsOf(apps: seq<Application>, studentId: string): (r: seq<Application>)
    ensures Seqs.IsSubsequence(r, apps)
    ensures forall i :: 0 <= i < |r| ==> r[i].info.studentId == studentId
    ensures forall i :: 0 <= i < |apps| && apps[i].info.studentId == studentId ==> apps[i] in r
  {
    Seqs.FilterIsSubsequence(apps, (a: Application) => a.info.studentId == studentId);
    Seqs.Filter(apps, (a: Application) => a.info.studentId == studentId)
  }

  /** Index `i` holds the first signature of the student. */
  predicate FirstMatchAt(sigs: seq<Signature>, studentId: string, i: nat) {
    && i < |sigs| && sigs[i].info.studentId == studentId
    && forall j :: 0 <= j < i ==> sigs[j].info.studentId != studentId
  }

  /** `Array.from(sigs.values()).find(s => s.studentId === studentId)`: the first match in insertion order. */
  function FindSignature(sigs: seq<Signature>, studentId: string): (r: Option<Signature>)
    ensures r.None? <==> forall i :: 0 <= i < |sigs| ==> sigs[i].info.studentId != studentId
    ensures r.Some? ==> exists i: nat :: FirstMatchAt(sigs, studentId, i) && sigs[i] == r.value
  {
    if sigs == [] then None
    else if sigs[0].info.studentId == studentId then
      assert FirstMatchAt(sigs, studentId, 0);
      Some(sigs[0])
    else
      var r := FindSignature(sigs[1..], studentId);
      assert forall i :: 0 < i < |sigs| ==> sigs[i] == sigs[1..][i - 1];
      if r.Some? then
        var i: nat :| FirstMatchAt(sigs[1..], studentId, i) && sigs[1..][i] == r.value;
        assert FirstMatchAt(sigs, studentId, i + 1);
        r
      else
        r
  }

  // ---------------------------------------------------------------- signatures

  /** At most one signature per student. */
  ghost predicate OnePerStudent(om: OMap<Signature>) {
    forall a, b :: a in om.m && b in om.m && om.m[a].info.studentId == om.m[b].info.studentId ==> a == b
  }

  /** The first half of `saveSignature`: the student's first signature, if any, is deleted. */
  function WithoutSignatureOf(om: OMap<Signature>, studentId: string): (r: OMap<Signature>)
    requires om.Valid()
    ensures r.Valid()
  {
    match FindSignature(om.Values(), studentId)
    case Some(e) => om.Delete(e.id).0
    case None => om
  }

  /** `saveSignature`'s effect: the old signature goes, then the new one is set under `id`. */
  function SavedSignatures(om: OMap<Signature>, sig: InsertSignature, id: string, now: Millis): (r: OMap<Signature>)
    requires om.Valid()
    ensures r.Valid()
  {
    WithoutSignatureOf(om, sig.studentId).Set(id, Signature(id, sig, now))
  }

  /** With one signature per student, deleting the first one found leaves none of that student's and no other change. */
  lemma WithoutSignatureOfClears(om: OMap<Signature>, studentId: string)
    requires om.Valid() && Keyed(om, (s: Signature) => s.id) && OnePerStudent(om)
    ensures var c := WithoutSignatureOf(om, studentId);
      && (forall k :: k in c.m ==> k in om.m && c.m[k] == om.m[k] && c.m[k].info.studentId != studentId)
      && (forall k :: k in om.m && om.m[k].info.studentId != studentId ==> k in c.m)
  {
    var vals := om.Values();
    var c := WithoutSignatureOf(om, studentId);
    match FindSignature(vals, studentId)
    case None =>
      forall k | k in om.m ensures om.m[k].info.studentId != studentId {
        var q :| 0 <= q < |om.keys| && om.keys[q] == k;
        assert vals[q] == om.m[k];
      }
    case Some(e) =>
      var i: nat :| FirstMatchAt(vals, studentId, i) && vals[i] == e;
      var ek := om.keys[i];
      assert om.m[ek] == e && e.id == ek;
      assert c.m == om.m - {ek};
  }

  /**
   * With a fresh id, saving keeps one signature per student: afterwards the new signature is the
   * student's only one, and every other student's signatures are exactly as before.
   */
  lemma SaveSignatureReplaces(om: OMap<Signature>, sig: InsertSignature, id: string, now: Millis)
    requires om.Valid() && Keyed(om, (s: Signature) => s.id) && OnePerStudent(om)
    requires id !in om.m
    ensures var r := SavedSignatures(om, sig, id, now);
      && Keyed(r, (s: Signature) => s.id) && OnePerStudent(r)
      && id in r.m && r.m[id] == Signature(id, sig, now)
      && (forall k :: k in r.m && r.m[k].info.studentId == sig.studentId ==> k == id)
      && (forall k :: k in om.m && om.m[k].info.studentId != sig.studentId ==> k in r.m && r.m[k] == om.m[k])
      && (forall k :: k in r.m && k != id ==> k in om.m && r.m[k] == om.m[k])
  {
    WithoutSignatureOfClears(om, sig.studentId);
  }

  // ---------------------------------------------------------------- job search

  /** `query ? title/company/description includes query (case-insensitively) : true`. */
  predicate MatchesQuery(j: Job, query: string) {
    query == ""
    || Includes(Lower(j.info.title), Lower(query))
    || Includes(Lower(j.info.company), Lower(query))
    || Includes(Lower(j.info.description), Lower(query))
  }

  /** `f && f !== "all"`: a type or category filter that is given, non-empty and not "all". */
  predicate Restricts(f: Option<string>) {
    f.Some? && f.value != "" && f.value != "all"
  }

  /** The `searchJobs` predicate. A job without a category never matches a category filter. */
  predicate MatchesSearch(j: Job, query: string, jobType: Option<string>, category: Option<string>) {
    && MatchesQuery(j, query)
    && (Restricts(jobType) ==> j.info.jobType == jobType.value)
    && (Restricts(category) ==> j.info.category == category)
  }

  /** `searchJobs` over the stored jobs in insertion order. */
  function SearchIn(all: seq<Job>, query: string, jobType: Option<string>, category: Option<string>): (r: seq<Job>)
    ensures Seqs.IsSubsequence(r, all)
    ensures forall i :: 0 <= i < |r| ==> MatchesSearch(r[i], query, jobType, category)
    ensures forall i :: 0 <= i < |all| && MatchesSearch(all[i], query, jobType, category) ==> all[i] in r
  {
    Seqs.FilterIsSubsequence(all, (j: Job) => MatchesSearch(j, query, jobType, category));
    Seqs.Filter(all, (j: Job) => MatchesSearch(j, query, jobType, category))
  }

  /** An empty query with no type or category restriction returns every job, in order. */
  lemma SearchUnrestrictedIsAll(all: seq<Job>, jobType: Option<string>, category: Option<string>)
    requires !Restricts(jobType) && !Restricts(category)
    ensures SearchIn(all, "", jobType, category) == all
  {
    Seqs.FilterKeepsAll(all, (j: Job) => MatchesSearch(j, "", jobType, category));
  }

  /** Every result contains the query, case-insensitively, in its title, company or description. */
  lemma SearchResultsContainQuery(all: seq<Job>, query: string, jobType: Option<string>, category: Option<string>, i: nat)
    requires query != "" && i < |SearchIn(all, query, jobType, category)|
    ensures var j := SearchIn(all, query, jobType, category)[i];
      Includes(Lower(j.info.title), Lower(query)) || Includes(Lower(j.info.company), Lower(query))
      || Includes(Lower(j.info.description), Lower(query))
  {
  }

  // ---------------------------------------------------------------- the store

  class MemStorage {
    var profiles: OMap<StudentProfile>
    var documents: OMap<Document>
    var signatures: OMap<Signature>
    var jobs: OMap<Job>
    var applications: OMap<Application>

    ghost predicate Valid()
      reads this
    {
      && profiles.Valid() && documents.Valid() && signatures.Valid() && jobs.Valid() && applications.Valid()
      && Keyed(profiles, (p: StudentProfile) => p.id)
      && Keyed(documents, (d: Document) => d.id)
      && Keyed(signatures, (s: Signature) => s.id)
      && Keyed(jobs, (j: Job) => j.id)
      && Keyed(applications, (a: Application) => a.id)
      && |profiles.keys| > 0 && profiles.keys[0] == DefaultStudentId
    }

    /** The constructor seeds the blank default profile, stamped `now`. */
    constructor(now: Millis)
      ensures Valid()
      ensures profiles == OMap([DefaultStudentId], map[DefaultStudentId := StudentProfile(DefaultStudentId, BlankProfile, now, now)])
      ensures documents == Empty() && signatures == Empty() && jobs == Empty() && applications == Empty()
    {
      documents := Empty();
      signatures := Empty();
      jobs := Empty();
      applications := Empty();
      profiles := Empty<StudentProfile>().Set(DefaultStudentId, StudentProfile(DefaultStudentId, BlankProfile, now, now));
    }

    // ---------------------------------------------------------- profiles

    /** `getProfile`. */
    method GetProfile(id: string) returns (r: Option<StudentProfile>)
      requires Valid()
      ensures r.Some? <==> id in profiles.m
      ensures r.Some? ==> r.value == profiles.m[id] && r.value.id == id
    {
      r := profiles.Get(id);
    }

    /**
     * `getDefaultProfile`: the first profile in insertion order. Profiles are never deleted and
     * `set` keeps a key's place, so this is always the seeded profile, as last updated.
     */
    method GetDefaultProfile() returns (r: Option<StudentProfile>)
      requires Valid()
      ensures r.Some? && r.value == profiles.m[DefaultStudentId] && r.value.id == DefaultStudentId
    {
      var all := profiles.Values();
      if |all| > 0 {
        r := Some(all[0]);
      } else {
        r := None;
      }
    }

    /** `createProfile`: stored under `id`, with both timestamps `now`. */
    method CreateProfile(p: InsertStudentProfile, id: string, now: Millis) returns (r: StudentProfile)
      requires Valid()
      modifies this
      ensures Valid()
      ensures r == StudentProfile(id, p, now, now)
      ensures profiles == old(profiles).Set(id, r)
      ensures documents == old(documents) && signatures == old(signatures)
      ensures jobs == old(jobs) && applications == old(applications)
    {
      r := StudentProfile(id, p, now, now);
      profiles := profiles.Set(id, r);
    }

    /**
     * `updateProfile`: a missing id is an error and changes nothing; otherwise the supplied
     * fields replace the old ones, `id` and `createdAt` stay, and `updatedAt` becomes `now`.
     */
    method UpdateProfile(id: string, updates: ProfilePatch, now: Millis) returns (r: Result<StudentProfile, string>)
      requires Valid()
      modifies this
      ensures Valid()
      ensures id !in old(profiles.m) ==> r == Err(ProfileNotFound) && profiles == old(profiles)
      ensures id in old(profiles.m) ==>
        var prev := old(profiles.m[id]);
        && r == Ok(StudentProfile(prev.id, ApplyProfilePatch(prev.info, updates), prev.createdAt, now))
        && profiles == old(profiles).Set(id, r.value)
      ensures documents == old(documents) && signatures == old(signatures)
      ensures jobs == old(jobs) && applications == old(applications)
    {
      match profiles.Get(id)
      case None =>
        r := Err(ProfileNotFound);
      case Some(existing) =>
        var updated := StudentProfile(existing.id, ApplyProfilePatch(existing.info, updates), existing.createdAt, now);
        profiles := profiles.Set(id, updated);
        r := Ok(updated);
    }

    // ---------------------------------------------------------- documents

    /** `getDocument`. */
    method GetDocument(id: string) returns (r: Option<Document>)
      requires Valid()
      ensures r.Some? <==> id in documents.m
      ensures r.Some? ==> r.value == documents.m[id] && r.value.id == id
    {
      r := documents.Get(id);
    }

    /** `getDocumentsByStudent`. */
    method GetDocumentsByStudent(studentId: string) returns (r: seq<Document>)
      requires Valid()
      ensures r == DocumentsOf(documents.Values(), studentId)
      ensures forall k :: k in documents.m && documents.m[k].info.studentId == studentId ==> documents.m[k] in r
    {
      var all := documents.Values();
      r := DocumentsOf(all, studentId);
      forall k | k in documents.m && documents.m[k].info.studentId == studentId
        ensures documents.m[k] in r
      {
        var q :| 0 <= q < |documents.keys| && documents.keys[q] == k;
        assert all[q] == documents.m[k];
      }
    }

    /** `createDocument`: stored under `id`, uploaded `now`. */
    method CreateDocument(d: InsertDocument, id: string, now: Millis) returns (r: Document)
      requires Valid()
      modifies this
      ensures Valid()
      ensures r == Document(id, d, now)
      ensures documents == old(documents).Set(id, r)
      ensures profiles == old(profiles) && signatures == old(signatures)
      ensures jobs == old(jobs) && applications == old(applications)
    {
      r := Document(id, d, now);
      documents := documents.Set(id, r);
    }

    /** `deleteDocument`: true iff the id was present; the other documents keep their values and order. */
    method DeleteDocument(id: string) returns (deleted: bool)
      requires Valid()
      modifies this
      ensures Valid()
      ensures deleted <==> id in old(documents.m)
      ensures documents == old(documents).Delete(id).0
      ensures id !in documents.m
      ensures forall k :: k in old(documents.m) && k != id ==> k in documents.m && documents.m[k] == old(documents.m[k])
      ensures profiles == old(profiles) && signatures == old(signatures)
      ensures jobs == old(jobs) && applications == old(applications)
    {
      var (rest, present) := documents.Delete(id);
      documents := rest;
      deleted := present;
    }

    // ---------------------------------------------------------- signatures

    /** `getSignature`: the student's first signature in insertion order. */
    method GetSignature(studentId: string) returns (r: Option<Signature>)
      requires Valid()
      ensures r == FindSignature(signatures.Values(), studentId)
      ensures r.None? <==> forall k :: k in signatures.m ==> signatures.m[k].info.studentId != studentId
      ensures r.Some? ==> r.value.id in signatures.m && signatures.m[r.value.id] == r.value
      ensures r.Some? ==> r.value.info.studentId == studentId
    {
      var all := signatures.Values();
      r := FindSignature(all, studentId);
      if r.None? {
        forall k | k in signatures.m ensures signatures.m[k].info.studentId != studentId {
          var q :| 0 <= q < |signatures.keys| && signatures.keys[q] == k;
          assert all[q] == signatures.m[k];
        }
      } else {
        var i: nat :| FirstMatchAt(all, studentId, i) && all[i] == r.value;
        assert signatures.m[signatures.keys[i]] == r.value;
      }
    }

    /** `saveSignature`: drops the student's existing signature, then stores the new one under `id`. */
    method SaveSignature(sig: InsertSignature, id: string, now: Millis) returns (r: Signature)
      requires Valid()
      modifies this
      ensures Valid()
      ensures r == Signature(id, sig, now)
      ensures signatures == SavedSignatures(old(signatures), sig, id, now)
      ensures profiles == old(profiles) && documents == old(documents)
      ensures jobs == old(jobs) && applications == old(applications)
    {
      var existing := GetSignature(sig.studentId);
      if existing.Some? {
        var (rest, _) := signatures.Delete(existing.value.id);
        signatures := rest;
      }
      r := Signature(id, sig, now);
      signatures := signatures.Set(id, r);
    }

    // ---------------------------------------------------------- jobs

    /** `getJob`. */
    method GetJob(id: string) returns (r: Option<Job>)
      requires Valid()
      ensures r.Some? <==> id in jobs.m
      ensures r.Some? ==> r.value == jobs.m[id] && r.value.id == id
    {
      r := jobs.Get(id);
    }

    /** `getAllJobs`: every job, in insertion order. */
    method GetAllJobs() returns (r: seq<Job>)
      requires Valid()
      ensures |r| == |jobs.keys|
      ensures forall i :: 0 <= i < |r| ==> r[i] == jobs.m[jobs.keys[i]] && r[i].id == jobs.keys[i]
    {
      r := jobs.Values();
    }

    /** `searchJobs(query, type, category)`. */
    method SearchJobs(query: string, jobType: Option<string>, category: Option<string>) returns (r: seq<Job>)
      requires Valid()
      ensures r == SearchIn(jobs.Values(), query, jobType, category)
      ensures forall k :: k in jobs.m && MatchesSearch(jobs.m[k], query, jobType, category) ==> jobs.m[k] in r
    {
      var all := jobs.Values();
      r := SearchIn(all, query, jobType, category);
      forall k | k in jobs.m && MatchesSearch(jobs.m[k], query, jobType, category)
        ensures jobs.m[k] in r
      {
        var q :| 0 <= q < |jobs.keys| && jobs.keys[q] == k;
        assert all[q] == jobs.m[k];
      }
    }

    /** `createJob`: stored under `id`, created `now`; it never fails. */
    method CreateJob(j: InsertJob, id: string, now: Millis) returns (r: Job)
      requires Valid()
      modifies this
      ensures Valid()
      ensures r == Job(id, j, now)
      ensures jobs == old(jobs).Set(id, r)
      ensures profiles == old(profiles) && documents == old(documents)
      ensures signatures == old(signatures) && applications == old(applications)
    {
      r := Job(id, j, now);
      jobs := jobs.Set(id, r);
    }

    // ---------------------------------------------------------- applications

    /** `getApplication`. */
    method GetApplication(id: string) returns (r: Option<Application>)
      requires Valid()
      ensures r.Some? <==> id in applications.m
      ensures r.Some? ==> r.value == applications.m[id] && r.value.id == id
    {
      r := applications.Get(id);
    }

    /** `getApplicationsByStudent`. */
    method GetApplicationsByStudent(studentId: string) returns (r: seq<Application>)
      requires Valid()
      ensures r == ApplicationsOf(applications.Values(), studentId)
      ensures forall k :: k in applications.m && applications.m[k].info.studentId == studentId ==> applications.m[k] in r
    {
      var all := applications.Values();
      r := ApplicationsOf(all, studentId);
      forall k | k in applications.m && applications.m[k].info.studentId == studentId
        ensures applications.m[k] in r
      {
        var q :| 0 <= q < |applications.keys| && applications.keys[q] == k;
        assert all[q] == applications.m[k];
      }
    }

    /** `createApplication`: stored under `id`, applied `now`. */
    method CreateApplication(a: InsertApplication, id: string, now: Millis) returns (r: Application)
      requires Valid()
      modifies this
      ensures Valid()
      ensures r == Application(id, a, now)
      ensures applications == old(applications).Set(id, r)
      ensures profiles == old(profiles) && documents == old(documents)
      ensures signatures == old(signatures) && jobs == old(jobs)
    {
      r := Application(id, a, now);
      applications := applications.Set(id, r);
    }

    /** `updateApplication`: a missing id is an error and changes nothing; otherwise the updates are merged in. */
    method UpdateApplication(id: string, updates: ApplicationPatch) returns (r: Result<Application, string>)
      requires Valid()
      modifies this
      ensures Valid()
      ensures id !in old(applications.m) ==> r == Err(ApplicationNotFound) && applications == old(applications)
      ensures id in old(applications.m) ==>
        var prev := old(applications.m[id]);
        && r == Ok(Application(prev.id, ApplyApplicationPatch(prev.info, updates), prev.appliedDate))
        && applications == old(applications).Set(id, r.value)
      ensures profiles == old(profiles) && documents == old(documents)
      ensures signatures == old(signatures) && jobs == old(jobs)
    {
      match applications.Get(id)
      case None =>
        r := Err(ApplicationNotFound);
      case Some(existing) =>
        var updated := Application(existing.id, ApplyApplicationPatch(existing.info, updates), existing.appliedDate);
        applications := applications.Set(id, updated);
        r := Ok(updated);
    }
  }

  /** A fresh store's default profile is the blank seeded one. */
  lemma SeededDefaultProfile(now: Millis)
    ensures var p := OMap([DefaultStudentId], map[DefaultStudentId := StudentProfile(DefaultStudentId, BlankProfile, now, now)]);
      p.Valid() && p.keys[0] == DefaultStudentId && p.m[p.keys[0]].info == BlankProfile
  {
  }
}
