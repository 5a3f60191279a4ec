/**
 * The client's request layer: `mapToEdgeFunction` routes a local API path to an edge function
 * URL by an ordered chain of substring checks, `apiRequest` and the query function add a bearer
 * header when a token is stored, and a non-OK response becomes an error "<status>: <text>"
 * unless the query asked for `null` on a 401.
 */
module QueryClient {
  import opened Common
  import opened Strings

  const DefaultSupabaseUrl: string := "https://cvnalogvvfzapxmozdyh.supabase.co"

  /** `import.meta.env.VITE_SUPABASE_URL || <default>`: an unset or empty variable gives the default. */
  function SupabaseUrl(env: Option<string>): (r: string)
    ensures env.Some? && env.value != "" ==> r == env.value
    ensures env.None? || env.value == "" ==> r == DefaultSupabaseUrl
  {
    if env.Some? && env.value != "" then env.value else DefaultSupabaseUrl
  }

  /** `${baseUrl}/<name>` with `baseUrl = ${SUPABASE_URL}/functions/v1`. */
  function EdgeUrl(supabaseUrl: string, name: string): string {
    supabaseUrl + "/functions/v1/" + name
  }

  /** The substring checks of `mapToEdgeFunction`, in the order they run, with their targets. */
  const Routes: seq<(string, string)> := [
    ("/profile", "profile"),
    ("/jobs", "jobs-api"),
    ("/documents", "documents-api"),
    ("/applications", "applications-api"),
    ("/job-tracker", "job-tracker"),
    ("/ocr-extract", "ocr-extract"),
    ("/job-scraper", "job-scraper")
  ]

  /** `mapToEdgeFunction(path)`: the first substring check that matches decides the URL. */
  function MapToEdgeFunction(supabaseUrl: string, path: string): (r: string)
    ensures Includes(path, "/profile") ==> r == EdgeUrl(supabaseUrl, "profile")
  {
    if Includes(path, "/profile") then EdgeUrl(supabaseUrl, "profile")
    else if Includes(path, "/jobs") then EdgeUrl(supabaseUrl, "jobs-api")
    else if Includes(path, "/documents") then EdgeUrl(supabaseUrl, "documents-api")
    else if Includes(path, "/applications") then EdgeUrl(supabaseUrl, "applications-api")
    else if Includes(path, "/job-tracker") then EdgeUrl(supabaseUrl, "job-tracker")
    else if Includes(path, "/ocr-extract") then EdgeUrl(supabaseUrl, "ocr-extract")
    else if Includes(path, "/job-scraper") then EdgeUrl(supabaseUrl, "job-scraper")
    else path
  }

  /** An independent reading of the chain: the index of the first route whose check matches. */
  function FirstRoute(routes: seq<(string, string)>, path: string): (r: Option<nat>)
    ensures r.Some? ==> r.value < |routes| && Includes(path, routes[r.value].0)
    ensures r.Some? ==> forall j :: 0 <= j < r.value ==> !Includes(path, routes[j].0)
    ensures r.None? <==> forall j :: 0 <= j < |routes| ==> !Includes(path, routes[j].0)
  {
    if routes == [] then None
    else if Includes(path, routes[0].0) then Some(0)
    else match FirstRoute(routes[1..], path)
      case None =>
        assert forall j :: 1 <= j < |routes| ==> routes[j] == routes[1..][j - 1];
        None
      case Some(i) =>
        assert forall j :: 1 <= j < |routes| ==> routes[j] == routes[1..][j - 1];
        Some(i + 1)
  }

  /** The URL the route table gives: the first passing route's function, or the path itself. */
  function RoutedUrl(supabaseUrl: string, path: string): string {
    match FirstRoute(Routes, path)
    case Some(i) => EdgeUrl(supabaseUrl, Routes[i].1)
    case None => path
  }

  /** The if-chain is the ordered route table. */
  lemma MapToEdgeFunctionFollowsRoutes(supabaseUrl: string, path: string)
    ensures MapToEdgeFunction(supabaseUrl, path) == RoutedUrl(supabaseUrl, path)
  {
    var r := FirstRoute(Routes, path);
    if r.Some? {
      var i := r.value;
      assert i == 0 || !Includes(path, Routes[0].0);
      assert i <= 1 || !Includes(path, Routes[1].0);
      assert i <= 2 || !Includes(path, Routes[2].0);
      assert i <= 3 || !Includes(path, Routes[3].0);
      assert i <= 4 || !Includes(path, Routes[4].0);
      assert i <= 5 || !Includes(path, Routes[5].0);
    } else {
      assert !Includes(path, Routes[0].0) && !Includes(path, Routes[1].0) && !Includes(path, Routes[2].0);
      assert !Includes(path, Routes[3].0) && !Includes(path, Routes[4].0) && !Includes(path, Routes[5].0);
      assert !Includes(path, Routes[6].0);
    }
  }

  /** Every result is one of the seven edge function URLs or the unchanged path. */
  lemma MapToEdgeFunctionRange(supabaseUrl: string, path: string)
    ensures var r := MapToEdgeFunction(supabaseUrl, path);
      r == path || exists i :: 0 <= i < |Routes| && r == EdgeUrl(supabaseUrl, Routes[i].1)
  {
    MapToEdgeFunctionFollowsRoutes(supabaseUrl, path);
  }

  /** A path that matches none of the checks is fetched as it is. */
  lemma UnmatchedPathUnchanged(supabaseUrl: string, path: string)
    requires forall i :: 0 <= i < |Routes| ==> !Includes(path, Routes[i].0)
    ensures MapToEdgeFunction(supabaseUrl, path) == path
  {
    MapToEdgeFunctionFollowsRoutes(supabaseUrl, path);
  }

  /** `queryKey.join("/")`. */
  function Join(parts: seq<string>, sep: string): (r: string)
    ensures parts == [] ==> r == ""
    ensures |parts| == 1 ==> r == parts[0]
    decreases |parts|
  {
    if parts == [] then ""
    else if |parts| == 1 then parts[0]
    else Join(parts[..|parts| - 1], sep) + sep + parts[|parts| - 1]
  }

  /** An occurrence inside an occurrence is an occurrence. */
  lemma OccursWithin(s: string, t: string, u: string, a: nat, b: nat)
    requires OccursAt(s, t, a) && OccursAt(t, u, b)
    ensures OccursAt(s, u, a + b)
  {
    forall i | 0 <= i < |u| ensures s[a + b + i] == u[i] {
      assert s[a + b + i] == s[a..a + |t|][b + i];
    }
  }

  /** Each key part appears whole in the joined path. */
  lemma {:induction false} JoinHoldsPart(parts: seq<string>, sep: string, k: nat)
    requires k < |parts|
    ensures exists a: nat :: OccursAt(Join(parts, sep), parts[k], a)
    decreases |parts|
  {
    var n := |parts|;
    if n == 1 {
      assert OccursAt(Join(parts, sep), parts[k], 0);
    } else {
      var init := Join(parts[..n - 1], sep);
      if k == n - 1 {
        assert OccursAt(Join(parts, sep), parts[k], |init| + |sep|);
      } else {
        JoinHoldsPart(parts[..n - 1], sep, k);
        var a: nat :| OccursAt(init, parts[..n - 1][k], a);
        assert parts[..n - 1][k] == parts[k];
        assert OccursAt(Join(parts, sep), init, 0);
        OccursWithin(Join(parts, sep), init, parts[k], 0, a);
      }
    }
  }

  /** A query key with a part naming the profile route is sent to the profile function. */
  lemma ProfileKeyRoutesToProfile(supabaseUrl: string, queryKey: seq<string>, k: nat)
    requires k < |queryKey| && Includes(queryKey[k], "/profile")
    ensures MapToEdgeFunction(supabaseUrl, Join(queryKey, "/")) == EdgeUrl(supabaseUrl, "profile")
  {
    JoinHoldsPart(queryKey, "/", k);
    var path := Join(queryKey, "/");
    var a: nat :| OccursAt(path, queryKey[k], a);
    IncludesIff(queryKey[k], "/profile");
    var b: nat :| OccursAt(queryKey[k], "/profile", b);
    OccursWithin(path, queryKey[k], "/profile", a, b);
    IncludesAt(path, "/profile", a + b);
  }

  /** `localStorage.getItem("accessToken")`, as read by `if (token)`: present and non-empty. */
  predicate HasToken(token: Option<string>) {
    token.Some? && token.value != ""
  }

  type Headers = map<string, string>

  /** The header set after the bearer step: `Authorization` added iff a token is present. */
  function WithBearer(initial: Headers, token: Option<string>): (h: Headers)
    ensures HasToken(token) ==> "Authorization" in h && h["Authorization"] == "Bearer " + token.value
    ensures !HasToken(token) ==> h == initial
    ensures forall k :: k != "Authorization" ==> (k in h <==> k in initial)
    ensures forall k :: k != "Authorization" && k in h ==> h[k] == initial[k]
  {
    if HasToken(token) then initial["Authorization" := "Bearer " + token.value] else initial
  }

  /** The query function sends an `Authorization` header exactly when a token is stored. */
  lemma QueryHeadersCarryBearerIffToken(token: Option<string>)
    ensures "Authorization" in WithBearer(map[], token) <==> HasToken(token)
    ensures HasToken(token) ==> WithBearer(map[], token) == map["Authorization" := "Bearer " + token.value]
  {
  }

  datatype HttpResponse = HttpResponse(status: nat, statusText: string, body: string)

  /** `res.ok`: a status in the range 200-299. */
  predicate IsOk(res: HttpResponse) {
    200 <= res.status <= 299
  }

  /** The message of `throwIfResNotOk`: the status, a colon, and the body or else the status text. */
  function NotOkMessage(res: HttpResponse): (m: string)
    ensures StartsWith(m, NatToString(res.status) + ": ")
    ensures res.body != "" ==> m[|NatToString(res.status)| + 2..] == res.body
    ensures res.body == "" ==> m[|NatToString(res.status)| + 2..] == res.statusText
  {
    var text := if res.body != "" then res.body else res.statusText;
    NatToString(res.status) + ": " + text
  }

  /** The status can be read back from the message: it is everything before the first ':'. */
  lemma StatusBeforeColon(res: HttpResponse)
    ensures BeforeFirst(NotOkMessage(res), ':') == NatToString(res.status)
  {
    var digits := NatToString(res.status);
    var m := NotOkMessage(res);
    assert m == digits + (": " + m[|digits| + 2..]);
    BeforeFirstOfPrefix(digits, ": " + m[|digits| + 2..], ':');
  }

  lemma {:induction false} BeforeFirstOfPrefix(a: string, b: string, sep: char)
    requires sep !in a && b != [] && b[0] == sep
    ensures BeforeFirst(a + b, sep) == a
    decreases |a|
  {
    if a != [] {
      assert (a + b)[1..] == a[1..] + b;
      BeforeFirstOfPrefix(a[1..], b, sep);
    }
  }

  datatype UnauthorizedBehavior = ReturnNull | Throw

  /** What awaiting a request yields: `null`, the decoded body, an error message, or a rejected fetch. */
  datatype Outcome = Null | Data(body: string) | Failed(message: string) | NetworkFailure

  /**
   * After `fetch`: the 401 exception of `returnNull`, then `throwIfResNotOk`, then `res.json()`.
   * `None` stands for a fetch that rejects.
   */
  function Settle(behavior: UnauthorizedBehavior, res: Option<HttpResponse>): (o: Outcome)
    ensures o == Null <==> behavior == ReturnNull && res.Some? && res.value.status == 401
    ensures o.Data? <==> res.Some? && IsOk(res.value)
    ensures o.Data? ==> o.body == res.value.body
    ensures o.Failed? ==> res.Some? && !IsOk(res.value) && o.message == NotOkMessage(res.value)
    ensures o == NetworkFailure <==> res.None?
  {
    match res
    case None => NetworkFailure
    case Some(r) =>
      if behavior == ReturnNull && r.status == 401 then Null
      else if !IsOk(r) then Failed(NotOkMessage(r))
      else Data(r.body)
  }

  /** With the default `throw` behaviour a 401 is an error whose message starts with "401: ". */
  lemma UnauthorizedThrows(res: HttpResponse)
    requires res.status == 401
    ensures Settle(Throw, Some(res)) == Failed(NotOkMessage(res))
    ensures StartsWith(NotOkMessage(res), "401: ")
  {
    assert NatToString(401) == "401";
  }

  datatype Request = Request(url: string, headers: Headers)

  /** The network and the browser's storage, as the request layer sees them. */
  datatype Environment = Environment(
    supabaseUrl: string,
    token: Option<string>,
    fetch: Request -> Option<HttpResponse>)

  /** `apiRequest(url, options)`: the caller's headers, the bearer step, the routed URL. */
  method ApiRequest(env: Environment, url: string, optionHeaders: Headers) returns (req: Request, o: Outcome)
    ensures req == Request(MapToEdgeFunction(env.supabaseUrl, url), WithBearer(optionHeaders, env.token))
    ensures o == Settle(Throw, env.fetch(req))
  {
    var headers := optionHeaders;
    if HasToken(env.token) {
      headers := headers["Authorization" := "Bearer " + env.token.value];
    }
    req := Request(MapToEdgeFunction(env.supabaseUrl, url), headers);
    o := Settle(Throw, env.fetch(req));
  }

  /** The function `getQueryFn({ on401 })` returns, applied to a query key. */
  method QueryFn(env: Environment, behavior: UnauthorizedBehavior, queryKey: seq<string>) returns (req: Request, o: Outcome)
    ensures req == Request(MapToEdgeFunction(env.supabaseUrl, Join(queryKey, "/")), WithBearer(map[], env.token))
    ensures o == Settle(behavior, env.fetch(req))
  {
    var path := Join(queryKey, "/");
    var headers: Headers := map[];
    if HasToken(env.token) {
      headers := headers["Authorization" := "Bearer " + env.token.value];
    }
    req := Request(MapToEdgeFunction(env.supabaseUrl, path), headers);
    o := Settle(behavior, env.fetch(req));
  }
}
