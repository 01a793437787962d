/**
 * The shared HTTP client of `src/api/api.ts`, seen through the state it
 * touches: the `authToken` entry of local storage and the browser location.
 * Network calls are not modelled; their results arrive as inputs.
 */
module Session {
  import opened Wrappers
  import opened Text

  const LoginPath: string := "/login"
  /** Where a rejected session lands: the login view flagged "expired". */
  const ExpiredLoginPath: string := "/login?expired=true"
  const AuthorizationHeader: string := "Authorization"
  const BearerPrefix: string := "Bearer "

  /** Local storage's `authToken` slot and `window.location.href`. */
  datatype State = State(token: Option<string>, location: string)

  datatype Request = Request(url: string, headers: map<string, string>)

  /** A server reply; the body is opaque here. */
  datatype Response = Response(status: int, body: string)

  /** A failed call, with the server's reply when one arrived. */
  datatype Failure = Failure(response: Option<Response>, message: string)

  /** How a call settled before the response interceptor sees it. */
  datatype Settled = Fulfilled(response: Response) | Rejected(failure: Failure)

  /** The reply of the identity endpoint's `login`, or a thrown error. */
  datatype LoginReply = Replied(status: int, accessToken: Option<string>) | Threw

  /** `if (token)`: a stored token counts only when it is non-empty. */
  predicate HasToken(s: State)
  {
    s.token.Some? && s.token.value != ""
  }

  /** The bearer credential a request carries, as a server would read it. */
  function Credential(req: Request): Option<string>
  {
    if AuthorizationHeader in req.headers && IsPrefix(BearerPrefix, req.headers[AuthorizationHeader])
    then Some(req.headers[AuthorizationHeader][|BearerPrefix|..])
    else None
  }

  /**
   * The request interceptor. It reads the state but cannot change it: the
   * result is the request alone.
   */
  function AttachToken(s: State, req: Request): (r: Request)
    ensures r.url == req.url
    ensures HasToken(s) ==>
              AuthorizationHeader in r.headers && r.headers[AuthorizationHeader] == BearerPrefix + s.token.value
    ensures forall k :: k != AuthorizationHeader ==> (k in r.headers <==> k in req.headers)
    ensures forall k :: k != AuthorizationHeader && k in req.headers ==> r.headers[k] == req.headers[k]
    ensures !HasToken(s) ==> r == req
  {
    if HasToken(s)
    then req.(headers := req.headers[AuthorizationHeader := BearerPrefix + s.token.value])
    else req
  }

  /** A request sent while a token is stored carries exactly that token. */
  lemma AttachedCredentialIsToken(s: State, req: Request)
    requires HasToken(s)
    ensures Credential(AttachToken(s, req)) == s.token
  {
    var h := AttachToken(s, req).headers[AuthorizationHeader];
    assert h[..|BearerPrefix|] == BearerPrefix;
    assert h[|BearerPrefix|..] == s.token.value;
  }

  predicate IsUnauthorized(o: Settled)
  {
    o.Rejected? && o.failure.response.Some? && o.failure.response.value.status == 401
  }

  /**
   * The response interceptor: a 401 failure empties the token slot and sends
   * the browser to the expired-login view; nothing else touches the state.
   * Every outcome is handed on as it came: replies resolve, failures are
   * re-rejected with the same error.
   */
  function InterceptResponse(s: State, o: Settled): (r: (State, Settled))
    ensures r.1 == o
    ensures IsUnauthorized(o) ==> r.0.token.None? && r.0.location == ExpiredLoginPath
    ensures !IsUnauthorized(o) ==> r.0 == s
  {
    if IsUnauthorized(o) then (State(None, ExpiredLoginPath), o) else (s, o)
  }

  /** Handling the same 401 twice leaves the state of handling it once. */
  lemma InterceptResponseIdempotent(s: State, o: Settled)
    ensures InterceptResponse(InterceptResponse(s, o).0, o) == InterceptResponse(s, o)
  {
  }

  /** The state after the interceptor has seen each outcome in turn. */
  function Replay(s: State, os: seq<Settled>): State
    decreases |os|
  {
    if os == [] then s else Replay(InterceptResponse(s, os[0]).0, os[1..])
  }

  predicate AnyUnauthorized(os: seq<Settled>)
  {
    exists i :: 0 <= i < |os| && IsUnauthorized(os[i])
  }

  lemma {:induction false} ReplayFromExpired(os: seq<Settled>)
    ensures Replay(State(None, ExpiredLoginPath), os) == State(None, ExpiredLoginPath)
    decreases |os|
  {
    if os != [] {
      ReplayFromExpired(os[1..]);
    }
  }

  /**
   * Fail-closed: once any call in a run of responses comes back 401, the
   * token is gone and the location is the expired-login view, however many
   * 401s or other outcomes follow.
   */
  lemma {:induction false} UnauthorizedIsFailClosed(s: State, os: seq<Settled>)
    requires AnyUnauthorized(os)
    ensures Replay(s, os) == State(None, ExpiredLoginPath)
    decreases |os|
  {
    if IsUnauthorized(os[0]) {
      ReplayFromExpired(os[1..]);
    } else {
      var i :| 0 <= i < |os| && IsUnauthorized(os[i]);
      assert IsUnauthorized(os[1..][i - 1]);
      UnauthorizedIsFailClosed(s, os[1..]);
    }
  }

  /** Successes, network errors and non-401 statuses never touch the session. */
  lemma {:induction false} OtherOutcomesLeaveState(s: State, os: seq<Settled>)
    requires !AnyUnauthorized(os)
    ensures Replay(s, os) == s
    decreases |os|
  {
    if os != [] {
      assert !IsUnauthorized(os[0]);
      assert !AnyUnauthorized(os[1..]) by {
        forall i | 0 <= i < |os[1..]|
          ensures !IsUnauthorized(os[1..][i])
        {
          assert os[1..][i] == os[i + 1];
        }
      }
      OtherOutcomesLeaveState(s, os[1..]);
    }
  }

  /**
   * `login`: succeeds exactly on status 200 with an access token, and then
   * stores that token; on any other reply or a thrown error it reports
   * failure and leaves the state as it was.
   */
  function Login(s: State, reply: LoginReply): (r: (State, bool))
    ensures r.1 <==> reply.Replied? && reply.status == 200 && reply.accessToken.Some?
    ensures r.1 ==> r.0.token == reply.accessToken && r.0.location == s.location
    ensures !r.1 ==> r.0 == s
  {
    if reply.Replied? && reply.status == 200 && reply.accessToken.Some?
    then (s.(token := reply.accessToken), true)
    else (s, false)
  }

  /** After a successful login with a non-empty token, requests carry it. */
  lemma LoginThenRequestCarriesToken(s: State, reply: LoginReply, req: Request)
    requires Login(s, reply).1 && reply.accessToken.value != ""
    ensures Credential(AttachToken(Login(s, reply).0, req)) == reply.accessToken
  {
    AttachedCredentialIsToken(Login(s, reply).0, req);
  }

  /**
   * A login that succeeds with an empty access token stores `""`, which the
   * request interceptor treats as no token: later requests go out unchanged.
   */
  lemma LoginWithEmptyTokenSendsNoCredential(s: State, req: Request)
    ensures Login(s, Replied(200, Some(""))).1
    ensures AttachToken(Login(s, Replied(200, Some(""))).0, req) == req
  {
  }

  /** `logout`: the token is cleared and the browser goes to the plain login view. */
  function Logout(s: State): (r: State)
    ensures r.token.None? && !HasToken(r)
    ensures r.location == LoginPath && r.location != ExpiredLoginPath
  {
    State(None, LoginPath)
  }

  /** Once logged out (or expired), requests go out without a credential added. */
  lemma LogoutStopsAttaching(s: State, req: Request)
    ensures AttachToken(Logout(s), req) == req
    ensures AttachToken(InterceptResponse(s, Rejected(Failure(Some(Response(401, "")), ""))).0, req) == req
  {
  }
}
