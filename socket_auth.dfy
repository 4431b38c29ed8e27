/** The connection gate of the real-time socket server. At connect time the
    client hands over an access token and/or a refresh token; the gate either
    admits the connection or rejects it with an error, and may first exchange
    the refresh token for a new pair, which it pushes to the client as
    `newTokens`. The outcomes of `jwt.verify` and of the identity service's
    `RefreshToken` call are parameters; the calls made, the events emitted and
    every call of the middleware's `next` are recorded in the result. */
module SocketAuth {
  import opened JsStrings

  /** `socket.handshake.auth`: the two tokens, each a string or missing. */
  datatype Handshake = Handshake(token: Option<string>, refreshToken: Option<string>)

  /** How `jwt.verify` ends on the access token: it returns, it throws a
      `TokenExpiredError`, it throws another `Error`, or it throws something
      that is not an `Error`. */
  datatype Verification = Verified | Expired | Invalid | NonErrorThrown

  /** The token pair the identity service returns. */
  datatype Tokens = Tokens(access_token: string, refresh_token: string)

  /** How the `RefreshToken` call ends. */
  datatype RefreshReply = RefreshFailed | Refreshed(result: Tokens)

  /** One call of `next`: without an argument (admit) or with an error. */
  datatype Decision = Admit | Reject(message: string)

  /** The `newTokens` event sent to the connecting client. */
  datatype NewTokens = NewTokens(token: string, refreshToken: string)

  /** Everything one connection attempt does. */
  datatype Trace = Trace(
    verifyCalls: seq<string>,
    refreshCalls: seq<string>,
    emitted: seq<NewTokens>,
    decisions: seq<Decision>)

  const NoTokensProvided := "No tokens provided"
  const InvalidAccessToken := "Invalid access token"
  const UnknownError := "Unknown error occurred"
  const RefreshTokenError := "Refresh token error"
  const NoTokenProvided := "Authentication error: No token provided"

  /** The admission rule, stated on its own: a present access token that
      verifies, or (the access token missing or merely expired) a present
      refresh token that the identity service exchanges. */
  predicate Admissible(h: Handshake, v: Verification, reply: RefreshReply) {
    || (Truthy(h.token) && v == Verified)
    || ((!Truthy(h.token) || v == Expired) && Truthy(h.refreshToken) && reply.Refreshed?)
  }

  /** The refresh path is taken exactly when the access token is missing or
      expired and a refresh token is present. */
  predicate Refreshes(h: Handshake, v: Verification) {
    (!Truthy(h.token) || v == Expired) && Truthy(h.refreshToken)
  }

  /** `authenticateSocket`. Every path calls `next` exactly once, admitting
      exactly when `Admissible` holds; the access token is verified once when
      present; the refresh token is sent at most once, and only on the
      refresh path; `newTokens` carries the new pair and is sent only when
      that exchange succeeds. */
  function Authenticate(h: Handshake, v: Verification, reply: RefreshReply): (t: Trace)
    ensures |t.decisions| == 1
    ensures t.decisions == [Admit] <==> Admissible(h, v, reply)
    ensures t.verifyCalls == (if Truthy(h.token) then [h.token.value] else [])
    ensures t.refreshCalls == (if Refreshes(h, v) then [h.refreshToken.value] else [])
    ensures t.emitted == (if Refreshes(h, v) && reply.Refreshed?
                          then [NewTokens(reply.result.access_token, reply.result.refresh_token)] else [])
  {
    if !Truthy(h.token) && !Truthy(h.refreshToken) then
      Trace([], [], [], [Reject(NoTokensProvided)])
    else
      var verifyCalls := if Truthy(h.token) then [h.token.value] else [];
      if Truthy(h.token) && v == Verified then
        Trace(verifyCalls, [], [], [Admit])
      else if Truthy(h.token) && v == Invalid then
        Trace(verifyCalls, [], [], [Reject(InvalidAccessToken)])
      else if Truthy(h.token) && v == NonErrorThrown then
        Trace(verifyCalls, [], [], [Reject(UnknownError)])
      else if Truthy(h.refreshToken) then
        match reply
        case RefreshFailed =>
          Trace(verifyCalls, [h.refreshToken.value], [], [Reject(RefreshTokenError)])
        case Refreshed(tokens) =>
          Trace(verifyCalls, [h.refreshToken.value],
                [NewTokens(tokens.access_token, tokens.refresh_token)], [Admit])
      else
        Trace(verifyCalls, [], [], [Reject(NoTokenProvided)])
  }

  /** Neither token: rejected, with nothing verified or refreshed. */
  lemma NoTokensRejected(h: Handshake, v: Verification, reply: RefreshReply)
    requires !Truthy(h.token) && !Truthy(h.refreshToken)
    ensures Authenticate(h, v, reply) == Trace([], [], [], [Reject(NoTokensProvided)])
  {
  }

  /** An access token that verifies is admitted and the refresh token is
      never consulted. */
  lemma ValidAccessTokenAdmitted(h: Handshake, reply: RefreshReply)
    requires Truthy(h.token)
    ensures Authenticate(h, Verified, reply) == Trace([h.token.value], [], [], [Admit])
  {
  }

  /** A verification failure other than expiry is rejected without any
      refresh attempt. */
  lemma InvalidAccessTokenNoRefresh(h: Handshake, v: Verification, reply: RefreshReply)
    requires Truthy(h.token) && (v == Invalid || v == NonErrorThrown)
    ensures var t := Authenticate(h, v, reply);
      && t.refreshCalls == [] && t.emitted == []
      && t.decisions == [Reject(if v == Invalid then InvalidAccessToken else UnknownError)]
  {
  }

  /** Expired or missing access token with a refresh token: one refresh call;
      success admits and emits `newTokens` with the new pair, failure rejects. */
  lemma RefreshPath(h: Handshake, v: Verification, reply: RefreshReply)
    requires !Truthy(h.token) || v == Expired
    requires Truthy(h.refreshToken)
    ensures var t := Authenticate(h, v, reply);
      && t.refreshCalls == [h.refreshToken.value]
      && (reply.Refreshed? ==>
            t.decisions == [Admit]
            && t.emitted == [NewTokens(reply.result.access_token, reply.result.refresh_token)])
      && (reply.RefreshFailed? ==> t.decisions == [Reject(RefreshTokenError)] && t.emitted == [])
  {
  }

  /** An expired access token without a refresh token is rejected. */
  lemma ExpiredWithoutRefreshRejected(h: Handshake, reply: RefreshReply)
    requires Truthy(h.token) && !Truthy(h.refreshToken)
    ensures Authenticate(h, Expired, reply) == Trace([h.token.value], [], [], [Reject(NoTokenProvided)])
  {
  }
}
