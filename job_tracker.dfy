/**
 * The `job-tracker` edge function: a POST carries an action on a student's applications, which
 * is validated and then dispatched to one database call. The database is a parameter.
 */
module JobTracker {
  import opened Common

  /** The decoded request body; each field may be missing. */
  datatype Payload = Payload(action: Option<string>, userId: Option<string>, jobId: Option<string>, status: Option<string>)

  /** JavaScript truthiness of an optional string field: present and non-empty. */
  predicate Given(field: Option<string>) {
    field.Some? && field.value != ""
  }

  /** A row of the `applications` table, as the database returns it. */
  datatype Row = Row(fields: map<string, string>)

  /** The one database call a request makes. */
  datatype Call =
    | Insert(userId: string, jobId: string, status: string)
    | Update(userId: string, jobId: string, status: string, updatedAt: string)
    | GetOne(userId: string, jobId: string)
    | GetAll(userId: string)

  /** `{ data, error }`: an error with its message, or the rows. */
  datatype DbAnswer = DbFailed(message: string) | Rows(rows: seq<Row>)

  datatype Body =
    | ErrorBody(error: string)
    | ApplicationBody(application: Option<Row>)
    | NullApplication
    | ApplicationsBody(applications: seq<Row>)

  datatype Response = Response(status: nat, body: Body)

  datatype Outcome = Outcome(response: Response, call: Option<Call>)

  /** `data[0]`, or no application when the select returned nothing. */
  function First(rows: seq<Row>): Option<Row> {
    if rows == [] then None else Some(rows[0])
  }

  /** A database error is rethrown and answered by the outer catch with a 500. */
  function Settled(call: Call, answer: DbAnswer, ok: seq<Row> -> Body): Outcome {
    match answer
    case DbFailed(m) => Outcome(Response(500, ErrorBody(m)), Some(call))
    case Rows(rs) => Outcome(Response(200, ok(rs)), Some(call))
  }

  /**
   * The served handler. `payload` is `None` when `req.json()` throws, with `parseError` its
   * message; `nowIso` is `new Date().toISOString()`.
   */
  function Handle(requestMethod: string, payload: Option<Payload>, parseError: string,
                  db: Call -> DbAnswer, nowIso: string): (r: Outcome)
    ensures requestMethod != "POST" ==> r == Outcome(Response(405, ErrorBody("POST required")), None)
    ensures requestMethod == "POST" && payload.None? ==> r == Outcome(Response(500, ErrorBody(parseError)), None)
    ensures requestMethod == "POST" && payload.Some? && !Given(payload.value.userId) ==>
      r == Outcome(Response(400, ErrorBody("userId required")), None)
    ensures r.call.Some? ==> payload.Some? && Given(payload.value.userId) && r.call.value.userId == payload.value.userId.value
    ensures r.response.status in {200, 400, 405, 500}
  {
    if requestMethod != "POST" then Outcome(Response(405, ErrorBody("POST required")), None)
    else match payload
      case None => Outcome(Response(500, ErrorBody(parseError)), None)
      case Some(p) =>
        if !Given(p.userId) then Outcome(Response(400, ErrorBody("userId required")), None)
        else Dispatch(p, db, nowIso)
  }

  /** The action chain, once the user is known. */
  function Dispatch(p: Payload, db: Call -> DbAnswer, nowIso: string): (r: Outcome)
    requires Given(p.userId)
    ensures r.call.Some? ==> r.call.value.userId == p.userId.value
    ensures r.response.status in {200, 400, 500}
  {
    var userId := p.userId.value;
    if p.action == Some("apply") then
      if !Given(p.jobId) then Outcome(Response(400, ErrorBody("jobId required for apply")), None)
      else
        var call := Insert(userId, p.jobId.value, "pending");
        Settled(call, db(call), rs => ApplicationBody(First(rs)))
    else if p.action == Some("update") then
      if !Given(p.jobId) || !Given(p.status) then
        Outcome(Response(400, ErrorBody("jobId and status required for update")), None)
      else
        var call := Update(userId, p.jobId.value, p.status.value, nowIso);
        Settled(call, db(call), rs => ApplicationBody(First(rs)))
    else if p.action == Some("get") && Given(p.jobId) then
      var call := GetOne(userId, p.jobId.value);
      match db(call)
      case DbFailed(_) => Outcome(Response(200, NullApplication), Some(call))
      case Rows(rs) => Outcome(Response(200, ApplicationBody(First(rs))), Some(call))
    else if p.action == Some("getAll") then
      var call := GetAll(userId);
      Settled(call, db(call), rs => ApplicationsBody(rs))
    else Outcome(Response(400, ErrorBody("Invalid action")), None)
  }

  /** A valid apply inserts one row for the user and the job, with status "pending". */
  lemma ApplyInsertsPending(p: Payload, db: Call -> DbAnswer, nowIso: string)
    requires Given(p.userId) && p.action == Some("apply")
    ensures !Given(p.jobId) ==> Handle("POST", Some(p), "", db, nowIso).response == Response(400, ErrorBody("jobId required for apply"))
    ensures Given(p.jobId) ==> Handle("POST", Some(p), "", db, nowIso).call == Some(Insert(p.userId.value, p.jobId.value, "pending"))
  {
  }

  /** An update needs both the job and the new status, and then stamps the time. */
  lemma UpdateNeedsJobAndStatus(p: Payload, db: Call -> DbAnswer, nowIso: string)
    requires Given(p.userId) && p.action == Some("update")
    ensures (!Given(p.jobId) || !Given(p.status)) <==>
      Handle("POST", Some(p), "", db, nowIso).response == Response(400, ErrorBody("jobId and status required for update"))
    ensures Given(p.jobId) && Given(p.status) ==>
      Handle("POST", Some(p), "", db, nowIso).call == Some(Update(p.userId.value, p.jobId.value, p.status.value, nowIso))
  {
  }

  /** "get" without a job falls through to the invalid action; a failed lookup is a 200 with `null`. */
  lemma GetCases(p: Payload, db: Call -> DbAnswer, nowIso: string)
    requires Given(p.userId) && p.action == Some("get")
    ensures !Given(p.jobId) ==> Handle("POST", Some(p), "", db, nowIso) == Outcome(Response(400, ErrorBody("Invalid action")), None)
    ensures Given(p.jobId) && db(GetOne(p.userId.value, p.jobId.value)).DbFailed? ==>
      Handle("POST", Some(p), "", db, nowIso).response == Response(200, NullApplication)
  {
  }

  /** Any other action is refused without touching the database. */
  lemma UnknownActionRejected(p: Payload, db: Call -> DbAnswer, nowIso: string)
    requires Given(p.userId)
    requires p.action !in {Some("apply"), Some("update"), Some("get"), Some("getAll")}
    ensures Handle("POST", Some(p), "", db, nowIso) == Outcome(Response(400, ErrorBody("Invalid action")), None)
  {
  }

  /**
   * A 500 comes from a body that is not JSON or from a database error on apply, update or
   * getAll. A lookup by "get" never produces it.
   */
  lemma ServerErrorCauses(requestMethod: string, payload: Option<Payload>, parseError: string, db: Call -> DbAnswer, nowIso: string)
    ensures var r := Handle(requestMethod, payload, parseError, db, nowIso);
      r.response.status == 500 ==>
        requestMethod == "POST" &&
        (payload.None? || (r.call.Some? && !r.call.value.GetOne? && db(r.call.value).DbFailed?))
  {
  }
}
