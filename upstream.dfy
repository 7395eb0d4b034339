/** The shapes exchanged with the streaming provider: recently-played replies,
    token-grant replies, and the sequence of outbound calls a client makes. */
module Upstream {
  import opened Wrappers

  datatype Artist = Artist(name: string)

  /** One recently-played track as the provider sends it. `images` may be empty. */
  datatype RawTrack = RawTrack(name: string, artists: seq<Artist>, images: seq<string>, spotifyUrl: string)

  /** One element of `items`; its `track` may be absent or null. */
  datatype Item = Item(track: Option<RawTrack>)

  /** A parsed JSON body of the recently-played endpoint; `items` may be missing. */
  datatype RecentDoc = RecentDoc(items: Option<seq<Item>>)

  /** What one `fetch` of the recently-played endpoint produced: a rejected promise,
      or a response with a status and a body that is `None` when `response.json()` throws. */
  datatype Reply = FetchFailed | Answer(status: int, body: Option<RecentDoc>)

  /** What one call to the token endpoint produced: a rejected `fetch` or `json()`,
      or a parsed body whose `access_token` may be missing. */
  datatype Grant = GrantFailed | GrantJson(accessToken: Option<string>)

  /** The outbound calls, in the order they are made. */
  datatype Call = FetchRecent(bearer: string) | FetchToken

  /** A request either completes with a value or is still waiting for upstream
      answers beyond the ones supplied. */
  datatype Completion<T> = Done(value: T) | Pending

  /** What a client's request came to: its result (or `Pending`), the access token
      afterwards, and the outbound calls made. */
  datatype Outcome<T> = Outcome(result: Completion<T>, token: string, calls: seq<Call>)

  /** `o` with `calls` made before it. */
  function After<T>(calls: seq<Call>, o: Outcome<T>): Outcome<T> {
    Outcome(o.result, o.token, calls + o.calls)
  }

  lemma AfterAfter<T>(a: seq<Call>, b: seq<Call>, o: Outcome<T>)
    ensures After(a, After(b, o)) == After(a + b, o)
  {
    assert a + (b + o.calls) == (a + b) + o.calls;
  }

  /** `response.ok` */
  predicate IsOk(status: int) {
    200 <= status <= 299
  }

  predicate IsUnauthorized(r: Reply) {
    r.Answer? && r.status == 401
  }

  /** A grant reply whose `access_token` is present and truthy (non-empty). */
  predicate Carries(g: Grant) {
    g.GrantJson? && g.accessToken.Some? && g.accessToken.value != ""
  }

  /** The access token after a grant reply: replaced only by a present, truthy (non-empty) `access_token`. */
  function NewToken(token: string, g: Grant): (r: string)
    ensures Carries(g) ==> r == g.accessToken.value
    ensures r != token ==> g.GrantJson? && g.accessToken == Some(r) && r != ""
  {
    if Carries(g) then g.accessToken.value else token
  }

  /** The access token after the grants `gs` have been applied in order: a last grant
      carrying a non-empty `access_token` decides it, and grants that carry none leave
      the token alone. */
  function TokenAfter(token: string, gs: seq<Grant>): (r: string)
    ensures |gs| >= 1 && Carries(gs[|gs| - 1]) ==> r == gs[|gs| - 1].accessToken.value
    ensures (forall m :: 0 <= m < |gs| ==> !Carries(gs[m])) ==> r == token
    decreases |gs|
  {
    if gs == [] then token else TokenAfter(NewToken(token, gs[0]), gs[1..])
  }

  /** Some answer of the token endpoint carried `token` as its access_token. */
  predicate Granted(token: string, grants: seq<Grant>)
  {
    exists m :: 0 <= m < |grants| && grants[m] == GrantJson(Some(token))
  }

  /** The last grant that carries a token decides the token, whatever failed grants, or
      grants with a missing or empty `access_token`, come after it. */
  lemma {:induction false} LastCarrierDecides(token: string, gs: seq<Grant>, m: nat)
    requires m < |gs| && Carries(gs[m])
    requires forall n :: m < n < |gs| ==> !Carries(gs[n])
    ensures TokenAfter(token, gs) == gs[m].accessToken.value
    decreases |gs|
  {
    if m == 0 {
      assert forall n :: 0 <= n < |gs[1..]| ==> !Carries(gs[1..][n]) by {
        forall n | 0 <= n < |gs[1..]| ensures !Carries(gs[1..][n]) {
          assert gs[1..][n] == gs[n + 1];
        }
      }
    } else {
      forall n | m - 1 < n < |gs[1..]| ensures !Carries(gs[1..][n]) {
        assert gs[1..][n] == gs[n + 1];
      }
      LastCarrierDecides(NewToken(token, gs[0]), gs[1..], m - 1);
    }
  }

  /** After any grant sequence the token is either the original one or a non-empty
      `access_token` that one of the grants carried: nothing else can become the token. */
  lemma {:induction false} TokenAfterCameFromAGrant(token: string, gs: seq<Grant>)
    ensures var r := TokenAfter(token, gs);
      r == token || (Granted(r, gs) && r != "")
    decreases |gs|
  {
    if gs != [] {
      var t := NewToken(token, gs[0]);
      TokenAfterCameFromAGrant(t, gs[1..]);
      var r := TokenAfter(t, gs[1..]);
      if r != t {
        var m :| 0 <= m < |gs[1..]| && gs[1..][m] == GrantJson(Some(r)) && r != "";
        assert gs[m + 1] == GrantJson(Some(r));
      } else if r != token {
        assert gs[0] == GrantJson(Some(r));
      }
    }
  }

  /** The number of 401 answers at the front of `replies`. */
  function Leading401s(replies: seq<Reply>): (k: nat)
    ensures k <= |replies|
    ensures forall m :: 0 <= m < k ==> IsUnauthorized(replies[m])
    ensures k < |replies| ==> !IsUnauthorized(replies[k])
    decreases |replies|
  {
    if replies == [] || !IsUnauthorized(replies[0]) then 0 else 1 + Leading401s(replies[1..])
  }

  /** The calls of a retry, put behind one fetch and one refresh, keep the pattern
      "each fetch bears the token the refreshes before it left". */
  lemma BearersAfterRefresh(token: string, grants: seq<Grant>, rest: seq<Call>)
    requires |grants| >= 1 && |rest| <= 2 * |grants| - 1
    requires forall i :: 0 <= i < |rest| ==>
      rest[i] == if i % 2 == 0 then FetchRecent(TokenAfter(NewToken(token, grants[0]), grants[1..][..i / 2])) else FetchToken
    ensures var calls := [FetchRecent(token), FetchToken] + rest;
      forall i :: 0 <= i < |calls| ==>
        calls[i] == if i % 2 == 0 then FetchRecent(TokenAfter(token, grants[..i / 2])) else FetchToken
  {
    var calls := [FetchRecent(token), FetchToken] + rest;
    forall i | 0 <= i < |calls|
      ensures calls[i] == if i % 2 == 0 then FetchRecent(TokenAfter(token, grants[..i / 2])) else FetchToken
    {
      if i >= 2 {
        assert calls[i] == rest[i - 2];
        var j := (i - 2) / 2;
        assert i / 2 == j + 1;
        assert grants[..j + 1][1..] == grants[1..][..j];
      } else if i == 0 {
        assert grants[..0] == [];
      }
    }
  }
}
