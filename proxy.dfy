/** The serverless endpoint that forwards "recently played" requests to the provider
    and refreshes the bearer token when the provider answers 401. The module-level
    access token is the one piece of state; the provider is an injected sequence of
    answers, consumed in order. */
module SpotifyProxy {
  import opened Wrappers
  import opened Upstream

  datatype Request = Request(verb: string, action: Option<string>)

  datatype Payload = ErrorBody(error: string) | MessageBody(message: string) | Passthrough(doc: RecentDoc)

  datatype Response = Response(status: int, body: Payload)

  const MethodNotAllowed := Response(405, ErrorBody("Method not allowed"))
  const InvalidAction := Response(400, ErrorBody("Invalid action"))
  const InternalError := Response(500, ErrorBody("Internal server error"))
  const TokenRefreshed := Response(200, MessageBody("Token refreshed"))

  /** The handler's answer to a recent-track fetch the provider did not answer with 401:
      the parsed body passed through with 200, or 500 when `fetch` or `json()` threw. */
  function Forward(reply: Reply): (r: Response)
    requires !IsUnauthorized(reply)
    ensures r.status == 200 <==> reply.Answer? && reply.body.Some?
    ensures r.status == 200 ==> r.body == Passthrough(reply.body.value)
    ensures r.status != 200 ==> r == InternalError
  {
    match reply
    case FetchFailed => InternalError
    case Answer(_, body) =>
      match body
      case None => InternalError
      case Some(doc) => Response(200, Passthrough(doc))
  }

  /** The handler as written: after a 401 and a token refresh it calls itself again
      with the same request. `recent` and `grants` are the provider's answers to the
      recently-played fetches and to the token-endpoint calls, in order. */
  function HandleRequest(token: string, req: Request, recent: seq<Reply>, grants: seq<Grant>): (o: Outcome<Response>)
    ensures (req.verb != "GET" || (req.action != Some("recent") && req.action != Some("refresh")))
            ==> o.calls == [] && o.token == token
    ensures o.token == token || Granted(o.token, grants)
    ensures |o.calls| <= 2 * |recent| + 1
    decreases |recent|
  {
    if req.verb != "GET" then Outcome(Done(MethodNotAllowed), token, [])
    else if req.action == Some("recent") then
      if recent == [] then Outcome(Pending, token, [])
      else if !IsUnauthorized(recent[0]) then Outcome(Done(Forward(recent[0])), token, [FetchRecent(token)])
      else if grants == [] then Outcome(Pending, token, [FetchRecent(token)])
      else if grants[0].GrantFailed? then Outcome(Done(InternalError), token, [FetchRecent(token), FetchToken])
      else
        var retry := HandleRequest(NewToken(token, grants[0]), req, recent[1..], grants[1..]);
        Outcome(retry.result, retry.token, [FetchRecent(token), FetchToken] + retry.calls)
    else if req.action == Some("refresh") then
      if grants == [] then Outcome(Pending, token, [])
      else if grants[0].GrantFailed? then Outcome(Done(InternalError), token, [FetchToken])
      else Outcome(Done(TokenRefreshed), NewToken(token, grants[0]), [FetchToken])
    else Outcome(Done(InvalidAction), token, [])
  }

  /** A request that is not a recent-track GET makes at most one call, to the token
      endpoint, and only for `refresh`. */
  lemma DispatchWithoutRetry(token: string, req: Request, recent: seq<Reply>, grants: seq<Grant>)
    requires req.verb != "GET" || req.action != Some("recent")
    ensures var o := HandleRequest(token, req, recent, grants);
      && (req.verb != "GET" ==> o == Outcome(Done(MethodNotAllowed), token, []))
      && (req.verb == "GET" && req.action != Some("refresh") ==> o == Outcome(Done(InvalidAction), token, []))
      && (req.verb == "GET" && req.action == Some("refresh") && grants != [] ==>
            o.calls == [FetchToken]
            && (grants[0].GrantFailed? ==> o.result == Done(InternalError) && o.token == token)
            && (grants[0].GrantJson? ==> o.result == Done(TokenRefreshed) && o.token == NewToken(token, grants[0])))
  {
  }

  /** On `recent`, the handler calls the recently-played endpoint and the token endpoint
      alternately, and calls the token endpoint (and fetches again) only after a 401:
      one refresh per 401, and no fetch after the first answer that is not a 401. Each
      fetch carries the token current at that point as its Bearer credential. */
  lemma {:induction false} OneRefreshPer401(token: string, req: Request, recent: seq<Reply>, grants: seq<Grant>)
    requires req.verb == "GET" && req.action == Some("recent")
    ensures var o := HandleRequest(token, req, recent, grants);
      && |o.calls| <= 2 * Leading401s(recent) + 1
      && |o.calls| <= 2 * |grants| + 1
      && (forall m :: 0 <= m && 2 * m + 1 < |o.calls| ==> IsUnauthorized(recent[m]))
      && (forall i :: 0 <= i < |o.calls| ==>
            o.calls[i] == if i % 2 == 0 then FetchRecent(TokenAfter(token, grants[..i / 2])) else FetchToken)
    decreases |recent|
  {
    var o := HandleRequest(token, req, recent, grants);
    if recent != [] && IsUnauthorized(recent[0]) && grants != [] && grants[0].GrantJson? {
      var t := NewToken(token, grants[0]);
      var retry := HandleRequest(t, req, recent[1..], grants[1..]);
      OneRefreshPer401(t, req, recent[1..], grants[1..]);
      assert o.calls == [FetchRecent(token), FetchToken] + retry.calls;
      assert Leading401s(recent) == 1 + Leading401s(recent[1..]);
      forall m | 0 <= m && 2 * m + 1 < |o.calls| ensures IsUnauthorized(recent[m]) {
        if m > 0 {
          assert 2 * (m - 1) + 1 < |retry.calls|;
          assert recent[1..][m - 1] == recent[m];
        }
      }
      BearersAfterRefresh(token, grants, retry.calls);
    } else if recent != [] {
      assert grants[..0] == [];
    }
  }

  /** When every refresh along the way completes, the handler answers exactly the first
      reply that is not a 401, after one refresh per preceding 401, and ends holding the
      token those refreshes left. */
  lemma {:induction false} StopsAtFirstNon401(token: string, req: Request, recent: seq<Reply>, grants: seq<Grant>)
    requires req.verb == "GET" && req.action == Some("recent")
    requires Leading401s(recent) < |recent| && Leading401s(recent) <= |grants|
    requires forall m :: 0 <= m < Leading401s(recent) ==> grants[m].GrantJson?
    ensures var o := HandleRequest(token, req, recent, grants);
      && o.result == Done(Forward(recent[Leading401s(recent)]))
      && |o.calls| == 2 * Leading401s(recent) + 1
      && o.token == TokenAfter(token, grants[..Leading401s(recent)])
    decreases |recent|
  {
    var k := Leading401s(recent);
    if k == 0 {
      assert grants[..0] == [];
    } else {
      assert grants[0].GrantJson?;
      var t := NewToken(token, grants[0]);
      assert Leading401s(recent[1..]) == k - 1;
      forall m | 0 <= m < k - 1 ensures grants[1..][m].GrantJson? {
        assert grants[1..][m] == grants[m + 1];
      }
      StopsAtFirstNon401(t, req, recent[1..], grants[1..]);
      assert recent[1..][k - 1] == recent[k];
      assert grants[..k][1..] == grants[1..][..k - 1];
    }
  }

  /** A refresh that throws ends the request with 500 and the token untouched by it. */
  lemma {:induction false} FailedRefreshIs500(token: string, req: Request, recent: seq<Reply>, grants: seq<Grant>, m: nat)
    requires req.verb == "GET" && req.action == Some("recent")
    requires m < Leading401s(recent) && m < |grants| && grants[m].GrantFailed?
    requires forall j :: 0 <= j < m ==> grants[j].GrantJson?
    ensures var o := HandleRequest(token, req, recent, grants);
      o.result == Done(InternalError) && |o.calls| == 2 * m + 2 && o.token == TokenAfter(token, grants[..m])
    decreases m
  {
    if m == 0 {
      assert grants[..0] == [];
    } else {
      var t := NewToken(token, grants[0]);
      assert Leading401s(recent[1..]) == Leading401s(recent) - 1;
      forall j | 0 <= j < m - 1 ensures grants[1..][j].GrantJson? {
        assert grants[1..][j] == grants[j + 1];
      }
      FailedRefreshIs500(t, req, recent[1..], grants[1..], m - 1);
      assert grants[..m][1..] == grants[1..][..m - 1];
    }
  }

  /** The retry has no bound: as long as the provider keeps answering 401 and the token
      endpoint keeps answering, the handler keeps refreshing and fetching. */
  lemma {:induction false} RetriesWithoutBound(token: string, req: Request, recent: seq<Reply>, grants: seq<Grant>)
    requires req.verb == "GET" && req.action == Some("recent")
    requires forall m :: 0 <= m < |recent| ==> IsUnauthorized(recent[m])
    requires |grants| >= |recent| && forall m :: 0 <= m < |recent| ==> grants[m].GrantJson?
    ensures var o := HandleRequest(token, req, recent, grants);
      o.result == Pending && |o.calls| == 2 * |recent|
    decreases |recent|
  {
    if recent != [] {
      forall m | 0 <= m < |recent| - 1 ensures IsUnauthorized(recent[1..][m]) && grants[1..][m].GrantJson? {
        assert recent[1..][m] == recent[m + 1] && grants[1..][m] == grants[m + 1];
      }
      RetriesWithoutBound(NewToken(token, grants[0]), req, recent[1..], grants[1..]);
    }
  }

  /** Every completed answer is one of the four fixed answers or a 200 pass-through. */
  lemma {:induction false} AnswersAreWellFormed(token: string, req: Request, recent: seq<Reply>, grants: seq<Grant>)
    ensures var o := HandleRequest(token, req, recent, grants);
      o.result.Done? ==>
        o.result.value in {MethodNotAllowed, InvalidAction, InternalError, TokenRefreshed}
        || (o.result.value.status == 200 && o.result.value.body.Passthrough?)
    decreases |recent|
  {
    if req.verb == "GET" && req.action == Some("recent") && recent != [] && IsUnauthorized(recent[0])
       && grants != [] && grants[0].GrantJson? {
      AnswersAreWellFormed(NewToken(token, grants[0]), req, recent[1..], grants[1..]);
    }
  }

  /** Round `i` of the `recent` branch: fetch, then either answer, wait, fail the
      refresh, or refresh and start over on the remaining answers. */
  lemma RecentRound(token: string, req: Request, recent: seq<Reply>, grants: seq<Grant>, i: nat)
    requires req.verb == "GET" && req.action == Some("recent")
    requires i < |recent| && i <= |grants|
    ensures var o := HandleRequest(token, req, recent[i..], grants[i..]);
      && (!IsUnauthorized(recent[i]) ==> o == Outcome(Done(Forward(recent[i])), token, [FetchRecent(token)]))
      && (IsUnauthorized(recent[i]) && i == |grants| ==> o == Outcome(Pending, token, [FetchRecent(token)]))
      && (IsUnauthorized(recent[i]) && i < |grants| && grants[i].GrantFailed? ==>
            o == Outcome(Done(InternalError), token, [FetchRecent(token), FetchToken]))
      && (IsUnauthorized(recent[i]) && i < |grants| && grants[i].GrantJson? ==>
            o == After([FetchRecent(token), FetchToken], HandleRequest(NewToken(token, grants[i]), req, recent[i + 1..], grants[i + 1..])))
  {
    var rs, gs := recent[i..], grants[i..];
    assert rs[0] == recent[i] && (gs == [] <==> i == |grants|);
    if i < |grants| {
      assert gs[0] == grants[i] && rs[1..] == recent[i + 1..] && gs[1..] == grants[i + 1..];
    }
  }

  /** The process holding the module-level `SPOTIFY_ACCESS_TOKEN`. */
  class Proxy {
    var accessToken: string

    constructor (bootstrap: string)
      ensures accessToken == bootstrap
    {
      accessToken := bootstrap;
    }

    /** `refreshToken`: one call to the token endpoint; `failed` is the exception it lets escape. */
    method RefreshToken(grant: Grant) returns (failed: bool)
      modifies this
      ensures failed <==> grant.GrantFailed?
      ensures accessToken == if failed then old(accessToken) else NewToken(old(accessToken), grant)
    {
      match grant
      case GrantFailed =>
        failed := true;
      case GrantJson(t) =>
        failed := false;
        if t.Some? && t.value != "" {
          accessToken := t.value;
        }
    }

    /** `handler`, with the self-call on 401 run as a loop over the provider's answers. */
    method Handler(req: Request, recent: seq<Reply>, grants: seq<Grant>) returns (response: Completion<Response>, calls: seq<Call>)
      modifies this
      ensures Outcome(response, accessToken, calls) == HandleRequest(old(accessToken), req, recent, grants)
    {
      if req.verb != "GET" {
        response, calls := Done(MethodNotAllowed), [];
      } else if req.action == Some("recent") {
        response, calls := Recent(req, recent, grants);
      } else if req.action == Some("refresh") {
        if grants == [] {
          response, calls := Pending, [];
        } else {
          var failed := RefreshToken(grants[0]);
          response := if failed then Done(InternalError) else Done(TokenRefreshed);
          calls := [FetchToken];
        }
      } else {
        response, calls := Done(InvalidAction), [];
      }
    }

    /** The `recent` branch: fetch, and on 401 refresh and go round again. */
    method Recent(req: Request, recent: seq<Reply>, grants: seq<Grant>) returns (response: Completion<Response>, calls: seq<Call>)
      requires req.verb == "GET" && req.action == Some("recent")
      modifies this
      ensures Outcome(response, accessToken, calls) == HandleRequest(old(accessToken), req, recent, grants)
    {
      calls := [];
      var i := 0;
      while i < |recent|
        invariant 0 <= i <= |recent| && i <= |grants|
        invariant HandleRequest(old(accessToken), req, recent, grants)
                  == After(calls, HandleRequest(accessToken, req, recent[i..], grants[i..]))
        decreases |recent| - i
      {
        ghost var prefix, t := calls, accessToken;
        RecentRound(t, req, recent, grants, i);
        calls := calls + [FetchRecent(accessToken)];
        if !IsUnauthorized(recent[i]) {
          response := Done(Forward(recent[i]));
          return;
        }
        if i == |grants| {
          response := Pending;
          return;
        }
        var failed := RefreshToken(grants[i]);
        calls := calls + [FetchToken];
        assert calls == prefix + [FetchRecent(t), FetchToken];
        if failed {
          response := Done(InternalError);
          return;
        }
        AfterAfter(prefix, [FetchRecent(t), FetchToken], HandleRequest(accessToken, req, recent[i + 1..], grants[i + 1..]));
        i := i + 1;
      }
      assert recent[i..] == [];
      response := Pending;
    }
  }
}
