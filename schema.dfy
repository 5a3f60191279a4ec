/**
 * The shared record types, their validating schemas and the constant tables.
 * A schema turns a raw request body into a typed record or a list of issues, one per
 * offending field in declaration order, as a zod object schema's `parse` does.
 */
module Schema {
  import opened Common

  // ---------------------------------------------------------------- raw input

  /** A field of a raw JSON body: absent, a string, or a value of some other JSON type. */
  datatype Raw = Missing | Str(s: string) | NotString

  type Body = map<string, Raw>

  function Field(body: Body, key: string): Raw {
    if key in body then body[key] else Missing
  }

  datatype Issue = Issue(path: string, message: string)

  /** The outcome of checking one field. */
  datatype Checked<T> = Good(v: T) | Bad(issue: Issue)

  function IssuesOf<T>(c: Checked<T>): (r: seq<Issue>)
    ensures r == [] <==> c.Good?
  {
    match c
    case Good(_) => []
    case Bad(i) => [i]
  }

  /** `z.string()`. */
  function StringField(body: Body, key: string): (c: Checked<string>)
    ensures c.Good? <==> Field(body, key).Str?
    ensures c.Good? ==> c.v == Field(body, key).s
  {
    match Field(body, key)
    case Missing => Bad(Issue(key, "Required"))
    case NotString => Bad(Issue(key, "Expected string"))
    case Str(s) => Good(s)
  }

  /** `z.string().min(1, message)`. */
  function NonEmptyField(body: Body, key: string, message: string): (c: Checked<string>)
    ensures c.Good? <==> Field(body, key).Str? && Field(body, key).s != ""
    ensures c.Good? ==> c.v == Field(body, key).s
    ensures Field(body, key) == Str("") ==> c == Bad(Issue(key, message))
  {
    match StringField(body, key)
    case Good(s) => if |s| < 1 then Bad(Issue(key, message)) else Good(s)
    case Bad(i) => Bad(i)
  }

  /** `z.string().optional()`. */
  function OptionalField(body: Body, key: string): (c: Checked<Option<string>>)
    ensures c.Good? <==> !Field(body, key).NotString?
    ensures c.Good? ==> c.v == if Field(body, key).Str? then Some(Field(body, key).s) else None
  {
    match Field(body, key)
    case Missing => Good(None)
    case NotString => Bad(Issue(key, "Expected string"))
    case Str(s) => Good(Some(s))
  }

  /** `z.string().default(d)`. */
  function DefaultField(body: Body, key: string, d: string): (c: Checked<string>)
    ensures c.Good? <==> !Field(body, key).NotString?
    ensures c.Good? ==> c.v == if Field(body, key).Str? then Field(body, key).s else d
  {
    match Field(body, key)
    case Missing => Good(d)
    case NotString => Bad(Issue(key, "Expected string"))
    case Str(s) => Good(s)
  }

  // ---------------------------------------------------------------- student profile

  datatype InsertStudentProfile = InsertStudentProfile(
    fullName: string, email: string, phone: string, dateOfBirth: string, address: string,
    education: string, skills: string, experience: string,
    photoUrl: Option<string>, profileData: Option<string>)

  datatype StudentProfile = StudentProfile(
    id: string, info: InsertStudentProfile, createdAt: Millis, updatedAt: Millis)

  /**
   * `insertStudentProfileSchema.parse`: full name and phone must be non-empty and the
   * email must satisfy the `isEmail` check (zod's email format, taken as given).
   */
  function ParseStudentProfile(body: Body, isEmail: string -> bool): (r: Result<InsertStudentProfile, seq<Issue>>)
    ensures r.Ok? <==>
      && Field(body, "fullName").Str? && Field(body, "fullName").s != ""
      && Field(body, "email").Str? && isEmail(Field(body, "email").s)
      && Field(body, "phone").Str? && Field(body, "phone").s != ""
      && Field(body, "dateOfBirth").Str? && Field(body, "address").Str?
      && Field(body, "education").Str? && Field(body, "skills").Str? && Field(body, "experience").Str?
      && !Field(body, "photoUrl").NotString? && !Field(body, "profileData").NotString?
    ensures r.Ok? ==>
      && r.value.fullName == Field(body, "fullName").s
      && r.value.email == Field(body, "email").s
      && r.value.phone == Field(body, "phone").s
    ensures Field(body, "fullName") == Str("") ==> r.Err? && Issue("fullName", "Full name is required") in r.error
    ensures Field(body, "phone") == Str("") ==> r.Err? && Issue("phone", "Phone number is required") in r.error
  {
    var fullName := NonEmptyField(body, "fullName", "Full name is required");
    var email := match StringField(body, "email")
      case Good(e) => if isEmail(e) then Good(e) else Bad(Issue("email", "Invalid email address"))
      case Bad(i) => Bad(i);
    var phone := NonEmptyField(body, "phone", "Phone number is required");
    var dateOfBirth := StringField(body, "dateOfBirth");
    var address := StringField(body, "address");
    var education := StringField(body, "education");
    var skills := StringField(body, "skills");
    var experience := StringField(body, "experience");
    var photoUrl := OptionalField(body, "photoUrl");
    var profileData := OptionalField(body, "profileData");
    var issues := IssuesOf(fullName) + IssuesOf(email) + IssuesOf(phone) + IssuesOf(dateOfBirth)
      + IssuesOf(address) + IssuesOf(education) + IssuesOf(skills) + IssuesOf(experience)
      + IssuesOf(photoUrl) + IssuesOf(profileData);
    if issues != [] then Err(issues)
    else Ok(InsertStudentProfile(fullName.v, email.v, phone.v, dateOfBirth.v, address.v,
      education.v, skills.v, experience.v, photoUrl.v, profileData.v))
  }

  /** The fields of a `Partial<InsertStudentProfile>`; `None` is an absent key. */
  datatype ProfilePatch = ProfilePatch(
    fullName: Option<string>, email: Option<string>, phone: Option<string>,
    dateOfBirth: Option<string>, address: Option<string>, education: Option<string>,
    skills: Option<string>, experience: Option<string>,
    photoUrl: Option<string>, profileData: Option<string>)

  function Override(prev: string, patch: Option<string>): string {
    patch.GetOr(prev)
  }

  function OverrideOptional(prev: Option<string>, patch: Option<string>): Option<string> {
    if patch.Some? then patch else prev
  }

  /** `{...p, ...patch}`: every supplied field replaces the old one, the rest are kept. */
  function ApplyProfilePatch(p: InsertStudentProfile, patch: ProfilePatch): InsertStudentProfile {
    InsertStudentProfile(
      Override(p.fullName, patch.fullName), Override(p.email, patch.email),
      Override(p.phone, patch.phone), Override(p.dateOfBirth, patch.dateOfBirth),
      Override(p.address, patch.address), Override(p.education, patch.education),
      Override(p.skills, patch.skills), Override(p.experience, patch.experience),
      OverrideOptional(p.photoUrl, patch.photoUrl), OverrideOptional(p.profileData, patch.profileData))
  }

  const NoProfileChanges := ProfilePatch(None, None, None, None, None, None, None, None, None, None)

  /** An empty patch changes nothing. */
  lemma EmptyProfilePatch(p: InsertStudentProfile)
    ensures ApplyProfilePatch(p, NoProfileChanges) == p
  {
  }

  // ---------------------------------------------------------------- documents and signatures

  datatype InsertDocument = InsertDocument(studentId: string, name: string, docType: string, size: string, url: string)

  datatype Document = Document(id: string, info: InsertDocument, uploadedDate: Millis)

  /** `insertDocumentSchema.parse`: every field a string, the name non-empty. */
  function ParseDocument(body: Body): (r: Result<InsertDocument, seq<Issue>>)
    ensures r.Ok? <==>
      && Field(body, "studentId").Str? && Field(body, "name").Str? && Field(body, "name").s != ""
      && Field(body, "type").Str? && Field(body, "size").Str? && Field(body, "url").Str?
    ensures r.Ok? ==> r.value == InsertDocument(Field(body, "studentId").s, Field(body, "name").s,
      Field(body, "type").s, Field(body, "size").s, Field(body, "url").s)
    ensures Field(body, "name") == Str("") ==> r.Err? && Issue("name", "Document name is required") in r.error
  {
    var studentId := StringField(body, "studentId");
    var name := NonEmptyField(body, "name", "Document name is required");
    var docType := StringField(body, "type");
    var size := StringField(body, "size");
    var url := StringField(body, "url");
    var issues := IssuesOf(studentId) + IssuesOf(name) + IssuesOf(docType) + IssuesOf(size) + IssuesOf(url);
    if issues != [] then Err(issues)
    else Ok(InsertDocument(studentId.v, name.v, docType.v, size.v, url.v))
  }

  datatype InsertSignature = InsertSignature(studentId: string, dataUrl: string)

  datatype Signature = Signature(id: string, info: InsertSignature, createdAt: Millis)

  /** `insertSignatureSchema.parse`: the data URL must be non-empty. */
  function ParseSignature(body: Body): (r: Result<InsertSignature, seq<Issue>>)
    ensures r.Ok? <==> Field(body, "studentId").Str? && Field(body, "dataUrl").Str? && Field(body, "dataUrl").s != ""
    ensures r.Ok? ==> r.value == InsertSignature(Field(body, "studentId").s, Field(body, "dataUrl").s)
    ensures Field(body, "dataUrl") == Str("") ==> r.Err? && Issue("dataUrl", "Signature data is required") in r.error
  {
    var studentId := StringField(body, "studentId");
    var dataUrl := NonEmptyField(body, "dataUrl", "Signature data is required");
    var issues := IssuesOf(studentId) + IssuesOf(dataUrl);
    if issues != [] then Err(issues) else Ok(InsertSignature(studentId.v, dataUrl.v))
  }

  // ---------------------------------------------------------------- jobs

  /**
   * A job as submitted for storage. `category` is `None` when the producer left the key
   * out, as the legacy scraper does; the schema itself always fills it in.
   */
  datatype InsertJob = InsertJob(
    title: string, company: string, location: string, jobType: string,
    category: Option<string>, deadline: string, description: string,
    salary: Option<string>, requirements: Option<string>)

  datatype Job = Job(id: string, info: InsertJob, createdAt: Millis)

  const DefaultJobCategory := "Central Government"

  /**
   * `insertJobSchema.parse`: title, company and location must be non-empty, category
   * defaults to "Central Government", salary and requirements may be left out.
   */
  function ParseJob(body: Body): (r: Result<InsertJob, seq<Issue>>)
    ensures r.Ok? <==>
      && Field(body, "title").Str? && Field(body, "title").s != ""
      && Field(body, "company").Str? && Field(body, "company").s != ""
      && Field(body, "location").Str? && Field(body, "location").s != ""
      && Field(body, "type").Str? && !Field(body, "category").NotString?
      && Field(body, "deadline").Str? && Field(body, "description").Str?
      && !Field(body, "salary").NotString? && !Field(body, "requirements").NotString?
    ensures r.Ok? ==>
      && r.value.title == Field(body, "title").s
      && r.value.company == Field(body, "company").s
      && r.value.location == Field(body, "location").s
      && r.value.category == Some(if Field(body, "category").Str? then Field(body, "category").s else DefaultJobCategory)
      && r.value.salary == (if Field(body, "salary").Str? then Some(Field(body, "salary").s) else None)
      && r.value.requirements == (if Field(body, "requirements").Str? then Some(Field(body, "requirements").s) else None)
  {
    var title := NonEmptyField(body, "title", "Job title is required");
    var company := NonEmptyField(body, "company", "Company name is required");
    var location := NonEmptyField(body, "location", "Location is required");
    var jobType := StringField(body, "type");
    var category := DefaultField(body, "category", DefaultJobCategory);
    var deadline := StringField(body, "deadline");
    var description := StringField(body, "description");
    var salary := OptionalField(body, "salary");
    var requirements := OptionalField(body, "requirements");
    var issues := IssuesOf(title) + IssuesOf(company) + IssuesOf(location) + IssuesOf(jobType)
      + IssuesOf(category) + IssuesOf(deadline) + IssuesOf(description) + IssuesOf(salary)
      + IssuesOf(requirements);
    if issues != [] then Err(issues)
    else Ok(InsertJob(title.v, company.v, location.v, jobType.v, Some(category.v), deadline.v,
      description.v, salary.v, requirements.v))
  }

  /** An empty title, company or location is rejected with that field's message. */
  lemma ParseJobRejectsEmpty(body: Body)
    ensures Field(body, "title") == Str("") ==> ParseJob(body).Err? && Issue("title", "Job title is required") in ParseJob(body).error
    ensures Field(body, "company") == Str("") ==> ParseJob(body).Err? && Issue("company", "Company name is required") in ParseJob(body).error
    ensures Field(body, "location") == Str("") ==> ParseJob(body).Err? && Issue("location", "Location is required") in ParseJob(body).error
  {
  }

  const JobCategories: seq<string> := [
    "Central Government",
    "State Government",
    "Public Sector Undertaking (PSU)",
    "Defence",
    "Railways",
    "Banking",
    "Police",
    "Judiciary",
    "Teaching / Education",
    "Health / Medical",
    "Engineering / Technical",
    "Administrative / Civil Services",
    "Apprenticeship",
    "Contract / Temporary",
    "Internship / Training"
  ]

  // ---------------------------------------------------------------- applications

  datatype AppStatus = Pending | Applied | AdmitCardReleased | ResultReleased | Selected | Rejected

  function StatusName(s: AppStatus): string {
    match s
    case Pending => "pending"
    case Applied => "applied"
    case AdmitCardReleased => "admit_card_released"
    case ResultReleased => "result_released"
    case Selected => "selected"
    case Rejected => "rejected"
  }

  /** The values of the application status enum, in declaration order. */
  const StatusEnum: seq<string> := ["pending", "applied", "admit_card_released", "result_released", "selected", "rejected"]

  /** The status named `s`, if `s` is one of the enum's values. */
  function ParseStatus(s: string): (r: Option<AppStatus>)
    ensures r.Some? <==> s in StatusEnum
    ensures r.Some? ==> StatusName(r.value) == s
  {
    if s == "pending" then Some(Pending)
    else if s == "applied" then Some(Applied)
    else if s == "admit_card_released" then Some(AdmitCardReleased)
    else if s == "result_released" then Some(ResultReleased)
    else if s == "selected" then Some(Selected)
    else if s == "rejected" then Some(Rejected)
    else None
  }

  /** Every status has a name in the enum, and distinct statuses have distinct names. */
  lemma StatusNamesAreEnum(a: AppStatus, b: AppStatus)
    ensures StatusName(a) in StatusEnum
    ensures ParseStatus(StatusName(a)) == Some(a)
    ensures StatusName(a) == StatusName(b) ==> a == b
  {
  }

  datatype InsertApplication = InsertApplication(
    studentId: string, jobId: string, jobTitle: string, company: string, status: AppStatus,
    deadline: Option<string>, admitCardUrl: Option<string>, resultUrl: Option<string>, formData: Option<string>)

  datatype Application = Application(id: string, info: InsertApplication, appliedDate: Millis)

  /** `insertApplicationSchema.parse`: the status must be one of the six values and defaults to pending. */
  function ParseApplication(body: Body): (r: Result<InsertApplication, seq<Issue>>)
    ensures r.Ok? <==>
      && Field(body, "studentId").Str? && Field(body, "jobId").Str?
      && Field(body, "jobTitle").Str? && Field(body, "company").Str?
      && (Field(body, "status").Missing? || (Field(body, "status").Str? && Field(body, "status").s in StatusEnum))
      && !Field(body, "deadline").NotString? && !Field(body, "admitCardUrl").NotString?
      && !Field(body, "resultUrl").NotString? && !Field(body, "formData").NotString?
    ensures r.Ok? && Field(body, "status").Missing? ==> r.value.status == Pending
    ensures r.Ok? && Field(body, "status").Str? ==> StatusName(r.value.status) == Field(body, "status").s
  {
    var studentId := StringField(body, "studentId");
    var jobId := StringField(body, "jobId");
    var jobTitle := StringField(body, "jobTitle");
    var company := StringField(body, "company");
    var status := match Field(body, "status")
      case Missing => Good(Pending)
      case NotString => Bad(Issue("status", "Invalid enum value"))
      case Str(s) => (match ParseStatus(s)
        case Some(st) => Good(st)
        case None => Bad(Issue("status", "Invalid enum value")));
    var deadline := OptionalField(body, "deadline");
    var admitCardUrl := OptionalField(body, "admitCardUrl");
    var resultUrl := OptionalField(body, "resultUrl");
    var formData := OptionalField(body, "formData");
    var issues := IssuesOf(studentId) + IssuesOf(jobId) + IssuesOf(jobTitle) + IssuesOf(company)
      + IssuesOf(status) + IssuesOf(deadline) + IssuesOf(admitCardUrl) + IssuesOf(resultUrl)
      + IssuesOf(formData);
    if issues != [] then Err(issues)
    else Ok(InsertApplication(studentId.v, jobId.v, jobTitle.v, company.v, status.v,
      deadline.v, admitCardUrl.v, resultUrl.v, formData.v))
  }

  /** The fields of a `Partial<InsertApplication>`; `None` is an absent key. */
  datatype ApplicationPatch = ApplicationPatch(
    studentId: Option<string>, jobId: Option<string>, jobTitle: Option<string>, company: Option<string>,
    status: Option<AppStatus>, deadline: Option<string>, admitCardUrl: Option<string>,
    resultUrl: Option<string>, formData: Option<string>)

  /** `{...a, ...patch}` on the application's own fields. */
  function ApplyApplicationPatch(a: InsertApplication, patch: ApplicationPatch): InsertApplication {
    InsertApplication(
      Override(a.studentId, patch.studentId), Override(a.jobId, patch.jobId),
      Override(a.jobTitle, patch.jobTitle), Override(a.company, patch.company),
      patch.status.GetOr(a.status),
      OverrideOptional(a.deadline, patch.deadline), OverrideOptional(a.admitCardUrl, patch.admitCardUrl),
      OverrideOptional(a.resultUrl, patch.resultUrl), OverrideOptional(a.formData, patch.formData))
  }

  datatype StatusOption = StatusOption(value: string, caption: string, icon: string)

  const ApplicationStatuses: seq<StatusOption> := [
    StatusOption("pending", "Pending", "Clock"),
    StatusOption("applied", "Applied", "CheckCircle2"),
    StatusOption("admit_card_released", "Admit Card Released", "FileText"),
    StatusOption("result_released", "Result Released", "Award"),
    StatusOption("selected", "Selected", "Trophy"),
    StatusOption("rejected", "Rejected", "AlertCircle")
  ]

  /** The display table lists exactly the enum's values, in the enum's order. */
  lemma StatusTableMatchesEnum()
    ensures |ApplicationStatuses| == |StatusEnum|
    ensures forall i :: 0 <= i < |StatusEnum| ==> ApplicationStatuses[i].value == StatusEnum[i]
  {
  }

  // ---------------------------------------------------------------- documents checklist

  const RequiredDocuments: seq<string> := [
    "Photo (Recent Passport Size)",
    "Signature",
    "Thumb Impression (if required)",
    "10th Marksheet / Certificate",
    "12th Marksheet / Certificate",
    "Graduation Certificate / Diploma",
    "Caste / EWS / PwD certificates",
    "Experience certificate (if applicable)",
    "Identity proof scan (Aadhaar / PAN / Voter ID / Passport / DL)"
  ]
}
