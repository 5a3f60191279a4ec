/**
 * The server's bearer-token middlewares. Each one writes the caller's identity into the request
 * and then either passes the request on by calling `next` or answers it with a 401. The backend's
 * token check is a parameter.
 */
module AuthMiddleware {
  import opened Common
  import opened Strings

  const DemoUserId: string := "demo-user-id"
  const DemoEmail: string := "demo@example.com"
  const BearerPrefix: string := "Bearer "

  /** The user `auth.getUser` returns; its email may be missing. */
  datatype User = User(id: string, email: Option<string>)

  /** `await supabase.auth.getUser(token)`: it throws, or yields an error flag and a user or none. */
  datatype Verification = Threw | Answer(failed: bool, user: Option<User>)

  /** The answer written with `res.status(status).json({ error })`. */
  datatype Reply = Reply(status: nat, error: string)

  /** What the middlewares touch: the request's identity fields, the `next` calls, the response. */
  datatype AuthState = AuthState(userId: Option<string>, userEmail: Option<string>, nextCalls: nat, response: Option<Reply>)

  /** `authHeader?.startsWith("Bearer ")`: a header is present and has the prefix. */
  predicate IsBearer(header: Option<string>) {
    header.Some? && StartsWith(header.value, BearerPrefix)
  }

  /** `authHeader.substring(7)`: the header without its seven-character prefix. */
  function TokenOf(header: string): (token: string)
    requires StartsWith(header, BearerPrefix)
    ensures header == BearerPrefix + token
  {
    header[|BearerPrefix|..]
  }

  /** The prefix and the token make up the header again: a round trip. */
  lemma TokenRoundTrip(token: string)
    ensures StartsWith(BearerPrefix + token, BearerPrefix)
    ensures TokenOf(BearerPrefix + token) == token
  {
    assert (BearerPrefix + token)[..|BearerPrefix|] == BearerPrefix;
  }

  /** The identity both middlewares fall back on when no backend is configured. */
  function WithDemoUser(s: AuthState): AuthState {
    s.(userId := Some(DemoUserId), userEmail := Some(DemoEmail), nextCalls := s.nextCalls + 1)
  }

  /** `authMiddleware(req, res, next)`: the state it leaves behind. */
  function AfterAuth(s: AuthState, backend: bool, header: Option<string>, verify: string -> Verification): (r: AuthState)
    ensures !backend ==> r == WithDemoUser(s)
    ensures backend && !IsBearer(header) ==> r == s.(response := Some(Reply(401, "Missing authorization token")))
    ensures r.nextCalls == s.nextCalls || r.nextCalls == s.nextCalls + 1
    ensures r.nextCalls == s.nextCalls ==> r.response.Some? && r.response.value.status == 401
    ensures r.nextCalls == s.nextCalls + 1 ==> r.response == s.response
  {
    if !backend then WithDemoUser(s)
    else if !IsBearer(header) then s.(response := Some(Reply(401, "Missing authorization token")))
    else match verify(TokenOf(header.value))
      case Threw => s.(response := Some(Reply(401, "Authentication failed")))
      case Answer(failed, user) =>
        if failed || user.None? then s.(response := Some(Reply(401, "Invalid or expired token")))
        else s.(userId := Some(user.value.id), userEmail := user.value.email, nextCalls := s.nextCalls + 1)
  }

  /** The user the backend vouches for when the token is checked, if any. */
  function VerifiedUser(backend: bool, header: Option<string>, verify: string -> Verification): Option<User> {
    if backend && IsBearer(header) then
      match verify(TokenOf(header.value))
      case Answer(false, Some(u)) => Some(u)
      case _ => None
    else None
  }

  /**
   * With a backend, the request passes exactly when the token checks out, and then it carries
   * the verified user; otherwise it is answered with a 401 and the identity is left alone.
   */
  lemma AuthPassesIffVerified(s: AuthState, header: Option<string>, verify: string -> Verification)
    requires s.response.None?
    ensures var r := AfterAuth(s, true, header, verify);
      && (r.nextCalls == s.nextCalls + 1 <==> VerifiedUser(true, header, verify).Some?)
      && (VerifiedUser(true, header, verify).Some? ==>
            r.userId == Some(VerifiedUser(true, header, verify).value.id)
            && r.userEmail == VerifiedUser(true, header, verify).value.email && r.response.None?)
      && (VerifiedUser(true, header, verify).None? ==>
            r.response.Some? && r.response.value.status == 401
            && r.userId == s.userId && r.userEmail == s.userEmail)
  {
  }

  /** The three reasons for a 401, each with its own message. */
  lemma AuthRejections(s: AuthState, header: string, verify: string -> Verification)
    requires StartsWith(header, BearerPrefix)
    ensures verify(TokenOf(header)).Threw? ==>
      AfterAuth(s, true, Some(header), verify).response == Some(Reply(401, "Authentication failed"))
    ensures verify(TokenOf(header)).Answer? && verify(TokenOf(header)).failed ==>
      AfterAuth(s, true, Some(header), verify).response == Some(Reply(401, "Invalid or expired token"))
    ensures verify(TokenOf(header)) == Answer(false, None) ==>
      AfterAuth(s, true, Some(header), verify).response == Some(Reply(401, "Invalid or expired token"))
  {
  }

  /** The token checked is what follows "Bearer ": the verifier sees exactly that string. */
  lemma AuthChecksTokenAfterPrefix(s: AuthState, token: string, verify: string -> Verification, u: User)
    requires verify(token) == Answer(false, Some(u))
    ensures AfterAuth(s, true, Some(BearerPrefix + token), verify).userId == Some(u.id)
  {
    TokenRoundTrip(token);
  }

  /** `optionalAuthMiddleware(req, res, next)`: the state it leaves behind. */
  function AfterOptionalAuth(s: AuthState, backend: bool, header: Option<string>, verify: string -> Verification): (r: AuthState)
    ensures !backend ==> r == WithDemoUser(s)
    ensures r.nextCalls == s.nextCalls + 1 && r.response == s.response
    ensures backend && !IsBearer(header) ==> r.userId.None? && r.userEmail == s.userEmail
  {
    if !backend then WithDemoUser(s)
    else if !IsBearer(header) then s.(userId := None, nextCalls := s.nextCalls + 1)
    else
      var t := match verify(TokenOf(header.value))
        case Answer(_, Some(u)) => s.(userId := Some(u.id), userEmail := u.email)
        case _ => s;
      t.(nextCalls := t.nextCalls + 1)
  }

  /**
   * With a backend, the optional middleware changes the identity only to clear it for a request
   * without a bearer header or to set it to a user the check yields, whatever its error flag.
   */
  lemma OptionalAuthIdentity(s: AuthState, header: Option<string>, verify: string -> Verification)
    ensures var r := AfterOptionalAuth(s, true, header, verify);
      || (!IsBearer(header) && r.userId.None? && r.userEmail == s.userEmail)
      || (IsBearer(header) && verify(TokenOf(header.value)).Answer? && verify(TokenOf(header.value)).user.Some?
          && r.userId == Some(verify(TokenOf(header.value)).user.value.id)
          && r.userEmail == verify(TokenOf(header.value)).user.value.email)
      || (r.userId == s.userId && r.userEmail == s.userEmail)
  {
  }

  /** A check that throws leaves the caller unauthenticated as before. */
  lemma OptionalAuthSurvivesThrow(s: AuthState, header: string, verify: string -> Verification)
    requires StartsWith(header, BearerPrefix) && verify(TokenOf(header)).Threw?
    ensures AfterOptionalAuth(s, true, Some(header), verify) == s.(nextCalls := s.nextCalls + 1)
  {
  }

  /** The Express request and response of one call, with the fields the middlewares write. */
  class Exchange {
    var userId: Option<string>
    var userEmail: Option<string>
    var nextCalls: nat
    var response: Option<Reply>

    constructor(userId0: Option<string>, userEmail0: Option<string>)
      ensures State() == AuthState(userId0, userEmail0, 0, None)
    {
      userId, userEmail, nextCalls, response := userId0, userEmail0, 0, None;
    }

    function State(): AuthState
      reads this
    {
      AuthState(userId, userEmail, nextCalls, response)
    }

    /** `next()`: hand the request on. */
    method Next()
      modifies this
      ensures State() == old(State()).(nextCalls := old(nextCalls) + 1)
    {
      nextCalls := nextCalls + 1;
    }

    /** `res.status(401).json({ error })`. */
    method Unauthorized(error: string)
      modifies this
      ensures State() == old(State()).(response := Some(Reply(401, error)))
    {
      response := Some(Reply(401, error));
    }

    method AuthMiddleware(backend: bool, header: Option<string>, verify: string -> Verification)
      modifies this
      ensures State() == AfterAuth(old(State()), backend, header, verify)
    {
      if !backend {
        userId := Some(DemoUserId);
        userEmail := Some(DemoEmail);
        Next();
        return;
      }
      if !IsBearer(header) {
        Unauthorized("Missing authorization token");
        return;
      }
      var token := TokenOf(header.value);
      var v := verify(token);
      if v.Threw? {
        Unauthorized("Authentication failed");
        return;
      }
      if v.failed || v.user.None? {
        Unauthorized("Invalid or expired token");
        return;
      }
      userId := Some(v.user.value.id);
      userEmail := v.user.value.email;
      Next();
    }

    method OptionalAuthMiddleware(backend: bool, header: Option<string>, verify: string -> Verification)
      modifies this
      ensures State() == AfterOptionalAuth(old(State()), backend, header, verify)
    {
      if !backend {
        userId := Some(DemoUserId);
        userEmail := Some(DemoEmail);
        Next();
        return;
      }
      if !IsBearer(header) {
        userId := None;
        Next();
        return;
      }
      var token := TokenOf(header.value);
      var v := verify(token);
      if v.Answer? && v.user.Some? {
        userId := Some(v.user.value.id);
        userEmail := v.user.value.email;
      }
      Next();
    }
  }
}
