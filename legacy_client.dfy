/** The older in-browser client that talks to the provider directly, holding the access
    token in `spotifyConfig`. Like the proxy it refreshes and retries on 401, but it
    swallows every error and answers null instead. */
module LegacyClient {
  import opened Wrappers
  import opened Upstream
  import opened Tracks

  /** `spotifyAPI.getRecentTrack` as written: on 401 it refreshes and calls itself.
      Any other reply maps as for the proxy's clients: a track from an ok response,
      null otherwise. */
  function GetRecent(token: string, replies: seq<Reply>, grants: seq<Grant>): (o: Outcome<Option<Track>>)
    ensures |o.calls| <= 2 * |replies|
    ensures o.calls != [] ==> o.calls[0] == FetchRecent(token)
    ensures o.result.Done? ==> |o.calls| % 2 == 1 && o.calls[|o.calls| - 1] == FetchRecent(o.token)
    decreases |replies|
  {
    if replies == [] then Outcome(Pending, token, [])
    else if !IsUnauthorized(replies[0]) then Outcome(Done(FetchedTrack(replies[0])), token, [FetchRecent(token)])
    else if grants == [] then Outcome(Pending, token, [FetchRecent(token)])
    else
      var retry := GetRecent(NewToken(token, grants[0]), replies[1..], grants[1..]);
      Outcome(retry.result, retry.token, [FetchRecent(token), FetchToken] + retry.calls)
  }

  /** Once the replies hold an answer that is not a 401 and the token endpoint has
      answered every refresh before it, the client returns the track mapped from that
      answer (null unless it is ok with a track), after exactly one refresh per 401,
      each fetch bearing the token current at that point. A refresh that fails leaves
      the token as it was and the retry goes ahead. */
  lemma {:induction false} RetriesUntilFirstNon401(token: string, replies: seq<Reply>, grants: seq<Grant>)
    requires Leading401s(replies) < |replies| && Leading401s(replies) <= |grants|
    ensures var o := GetRecent(token, replies, grants);
      var k := Leading401s(replies);
      && o.result == Done(FetchedTrack(replies[k]))
      && |o.calls| == 2 * k + 1
      && (forall i :: 0 <= i < |o.calls| ==>
            o.calls[i] == if i % 2 == 0 then FetchRecent(TokenAfter(token, grants[..i / 2])) else FetchToken)
      && o.token == TokenAfter(token, grants[..k])
    decreases |replies|
  {
    var k := Leading401s(replies);
    var o := GetRecent(token, replies, grants);
    if k == 0 {
      assert grants[..0] == [];
    } else {
      var t := NewToken(token, grants[0]);
      var retry := GetRecent(t, replies[1..], grants[1..]);
      assert Leading401s(replies[1..]) == k - 1;
      RetriesUntilFirstNon401(t, replies[1..], grants[1..]);
      assert replies[1..][k - 1] == replies[k];
      assert o.calls == [FetchRecent(token), FetchToken] + retry.calls;
      assert grants[..k][1..] == grants[1..][..k - 1];
      BearersAfterRefresh(token, grants, retry.calls);
    }
  }

  /** The retry has no bound: while the provider answers 401 and the token endpoint
      answers at all, the client keeps refreshing and fetching. */
  lemma {:induction false} RetriesWithoutBound(token: string, replies: seq<Reply>, grants: seq<Grant>)
    requires forall m :: 0 <= m < |replies| ==> IsUnauthorized(replies[m])
    requires |grants| >= |replies|
    ensures var o := GetRecent(token, replies, grants);
      o.result == Pending && |o.calls| == 2 * |replies|
    decreases |replies|
  {
    if replies != [] {
      forall m | 0 <= m < |replies| - 1 ensures IsUnauthorized(replies[1..][m]) {
        assert replies[1..][m] == replies[m + 1];
      }
      RetriesWithoutBound(NewToken(token, grants[0]), replies[1..], grants[1..]);
    }
  }

  /** Round `i` of the retry: fetch, then either return the mapped reply, wait, or
      refresh and start over on the remaining replies. */
  lemma GetRecentRound(token: string, replies: seq<Reply>, grants: seq<Grant>, i: nat)
    requires i < |replies| && i <= |grants|
    ensures var o := GetRecent(token, replies[i..], grants[i..]);
      && (!IsUnauthorized(replies[i]) ==> o == Outcome(Done(FetchedTrack(replies[i])), token, [FetchRecent(token)]))
      && (IsUnauthorized(replies[i]) && i == |grants| ==> o == Outcome(Pending, token, [FetchRecent(token)]))
      && (IsUnauthorized(replies[i]) && i < |grants| ==>
            o == After([FetchRecent(token), FetchToken], GetRecent(NewToken(token, grants[i]), replies[i + 1..], grants[i + 1..])))
  {
    var rs, gs := replies[i..], grants[i..];
    assert rs[0] == replies[i] && (gs == [] <==> i == |grants|);
    if i < |grants| {
      assert gs[0] == grants[i] && rs[1..] == replies[i + 1..] && gs[1..] == grants[i + 1..];
    }
  }

  /** `spotifyConfig` with the `spotifyAPI` calls that use it. */
  class SpotifyApi {
    var accessToken: string

    constructor (initial: string)
      ensures accessToken == initial
    {
      accessToken := initial;
    }

    /** `refreshToken`: a truthy `access_token` replaces the token; a failed call is
        logged and swallowed, leaving it as it was. */
    method RefreshToken(grant: Grant)
      modifies this
      ensures accessToken == NewToken(old(accessToken), grant)
      ensures grant.GrantFailed? ==> accessToken == old(accessToken)
    {
      match grant
      case GrantFailed =>
      case GrantJson(t) =>
        if t.Some? && t.value != "" {
          accessToken := t.value;
        }
    }

    /** `getRecentTrack`, with the self-call on 401 run as a loop over the replies. */
    method GetRecentTrack(replies: seq<Reply>, grants: seq<Grant>) returns (result: Completion<Option<Track>>, calls: seq<Call>)
      modifies this
      ensures Outcome(result, accessToken, calls) == GetRecent(old(accessToken), replies, grants)
    {
      calls := [];
      var i := 0;
      while i < |replies|
        invariant 0 <= i <= |replies| && i <= |grants|
        invariant GetRecent(old(accessToken), replies, grants)
                  == After(calls, GetRecent(accessToken, replies[i..], grants[i..]))
        decreases |replies| - i
      {
        ghost var prefix, t := calls, accessToken;
        GetRecentRound(t, replies, grants, i);
        calls := calls + [FetchRecent(accessToken)];
        if !IsUnauthorized(replies[i]) {
          result := Done(FetchedTrack(replies[i]));
          return;
        }
        if i == |grants| {
          result := Pending;
          return;
        }
        RefreshToken(grants[i]);
        calls := calls + [FetchToken];
        assert calls == prefix + [FetchRecent(t), FetchToken];
        AfterAfter(prefix, [FetchRecent(t), FetchToken], GetRecent(accessToken, replies[i + 1..], grants[i + 1..]));
        i := i + 1;
      }
      assert replies[i..] == [];
      result := Pending;
    }
  }
}
