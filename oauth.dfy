/** The three exchanges with the provider's OAuth endpoints, as values: what
    the provider answered, how the answer becomes a credential, and the
    device-flow poll loop as a function of the scripted answers. */
module OAuth {
  import opened Wrappers
  import opened Credentials

  /** Grant types sent to the token endpoint (section 6 of RFC 6749 and
      section 3.4 of RFC 8628). */
  const RefreshTokenGrant: string := "refresh_token"
  const DeviceCodeGrant: string := "urn:ietf:params:oauth:grant-type:device_code"

  /** The only poll error that keeps the loop going. */
  const AuthorizationPending: string := "authorization_pending"

  /** The body of a successful token response. `expiresIn` is in seconds;
      an absent `refresh_token` is the empty string. */
  datatype TokenGrant = TokenGrant(accessToken: string, refreshToken: string, expiresIn: int)

  /** Answer to the refresh request. `at` is the clock reading taken when the
      new credential is built. Every failure (non-ok status, network error,
      unreadable body) is `RefreshRejected`. */
  datatype RefreshReply =
    | RefreshOk(grant: TokenGrant, at: int)
    | RefreshRejected(statusText: string)

  /** Answer to the device-code request; `interval` is in seconds. */
  datatype DeviceCodeReply =
    | DeviceCodeOk(deviceCode: string, userCode: string, verificationUri: string, interval: nat)
    | DeviceCodeRejected

  /** Answer to one poll of the token endpoint: success, an error body with
      its `error` string, or a request that threw (network error, body that
      is not JSON). */
  datatype PollReply =
    | PollOk(grant: TokenGrant, at: int)
    | PollError(error: string)
    | PollTransportError

  /** What the client does on the network or the clock, in order. */
  datatype Event =
    | TokenRequest(grantType: string, token: string)
    | DeviceCodeRequest
    | Sleep(millis: int)

  /** The failures that end a device login. */
  datatype AuthError =
    | DeviceCodeFailed
    | PollRejected(error: string)
    | RequestFailed
    | SaveFailed

  /** How a device login ends; `StillPending` means every scripted answer so
      far was `authorization_pending` and the loop would poll again. */
  datatype LoginOutcome =
    | LoggedIn(creds: Creds)
    | LoginFailed(error: AuthError)
    | StillPending

  datatype Attempt = Attempt(outcome: LoginOutcome, trace: seq<Event>)

  /** The credential built from a successful refresh: the provider's refresh
      token when it rotates one, otherwise the one that was sent. */
  function RefreshResult(sent: string, reply: RefreshReply): (r: Option<Creds>)
    ensures r.Some? <==> reply.RefreshOk?
    ensures r.Some? ==> r.value.accessToken == reply.grant.accessToken
    ensures r.Some? ==> r.value.expiryDate == reply.at + reply.grant.expiresIn * 1000
    ensures r.Some? ==> r.value.resourceUrl == None
    ensures r.Some? && reply.grant.refreshToken != "" ==> r.value.refreshToken == reply.grant.refreshToken
    ensures r.Some? && reply.grant.refreshToken == "" ==> r.value.refreshToken == sent
    ensures r.Some? && sent != "" ==> r.value.refreshToken != ""
  {
    match reply
    case RefreshOk(grant, at) =>
      var kept := if grant.refreshToken != "" then grant.refreshToken else sent;
      Some(Creds(grant.accessToken, kept, at + grant.expiresIn * 1000, None))
    case RefreshRejected(_) => None
  }

  /** The credential built from a successful poll: the response's tokens as
      they are, no resource URL. */
  function DeviceCreds(grant: TokenGrant, at: int): (c: Creds)
    ensures c.accessToken == grant.accessToken && c.refreshToken == grant.refreshToken
    ensures c.expiryDate - at == grant.expiresIn * 1000
    ensures c.resourceUrl == None
  {
    Creds(grant.accessToken, grant.refreshToken, at + grant.expiresIn * 1000, None)
  }

  predicate IsPending(reply: PollReply)
  {
    reply.PollError? && reply.error == AuthorizationPending
  }

  /** How the loop ends on an answer that is not `authorization_pending`. */
  function Conclude(reply: PollReply): (o: LoginOutcome)
    requires !IsPending(reply)
    ensures !o.StillPending?
    ensures o.LoggedIn? <==> reply.PollOk?
    ensures reply.PollError? ==> o == LoginFailed(PollRejected(reply.error))
    ensures reply.PollOk? ==> o == LoggedIn(DeviceCreds(reply.grant, reply.at))
    ensures reply.PollTransportError? ==> o == LoginFailed(RequestFailed)
  {
    match reply
    case PollOk(grant, at) => LoggedIn(DeviceCreds(grant, at))
    case PollError(error) => LoginFailed(PollRejected(error))
    case PollTransportError => LoginFailed(RequestFailed)
  }

  /** One iteration of the loop: sleep `interval` seconds, then one request. */
  function Round(deviceCode: string, interval: nat): seq<Event>
  {
    [Sleep(interval * 1000), TokenRequest(DeviceCodeGrant, deviceCode)]
  }

  /** `n` iterations: sleeps at even positions, requests at odd ones. */
  function Rounds(deviceCode: string, interval: nat, n: nat): (t: seq<Event>)
    ensures |t| == 2 * n
  {
    seq(2 * n, j requires 0 <= j < 2 * n =>
      if j % 2 == 0 then Sleep(interval * 1000) else TokenRequest(DeviceCodeGrant, deviceCode))
  }

  /** The poll loop over the scripted answers, one answer per iteration. */
  function PollSpec(deviceCode: string, interval: nat, replies: seq<PollReply>): Attempt
    decreases |replies|
  {
    if |replies| == 0 then Attempt(StillPending, [])
    else
      var rest :=
        if IsPending(replies[0]) then PollSpec(deviceCode, interval, replies[1..])
        else Attempt(Conclude(replies[0]), []);
      Attempt(rest.outcome, Round(deviceCode, interval) + rest.trace)
  }

  /** Device login: request a code; on failure stop before any poll,
      otherwise poll with the code and interval received. */
  function LoginSpec(code: DeviceCodeReply, replies: seq<PollReply>): Attempt
  {
    match code
    case DeviceCodeRejected => Attempt(LoginFailed(DeviceCodeFailed), [DeviceCodeRequest])
    case DeviceCodeOk(deviceCode, _, _, interval) =>
      var poll := PollSpec(deviceCode, interval, replies);
      Attempt(poll.outcome, [DeviceCodeRequest] + poll.trace)
  }

  /** The number of answers the loop consumes before it ends or runs out. */
  function PollRounds(replies: seq<PollReply>): (n: nat)
    ensures n <= |replies|
  {
    if |replies| == 0 then 0
    else if IsPending(replies[0]) then 1 + PollRounds(replies[1..])
    else 1
  }

  lemma RoundsGrow(deviceCode: string, interval: nat, n: nat)
    ensures Round(deviceCode, interval) + Rounds(deviceCode, interval, n) == Rounds(deviceCode, interval, n + 1)
    ensures Rounds(deviceCode, interval, n) + Round(deviceCode, interval) == Rounds(deviceCode, interval, n + 1)
  {
  }

  /** Exactly one request per iteration, each one after one sleep of
      `interval` seconds. */
  lemma {:induction false} RoundsCount(deviceCode: string, interval: nat, n: nat)
    ensures multiset(Rounds(deviceCode, interval, n))[Sleep(interval * 1000)] == n
    ensures multiset(Rounds(deviceCode, interval, n))[TokenRequest(DeviceCodeGrant, deviceCode)] == n
    ensures forall j :: 0 <= j < 2 * n && Rounds(deviceCode, interval, n)[j].TokenRequest? ==>
              j > 0 && Rounds(deviceCode, interval, n)[j - 1] == Sleep(interval * 1000)
  {
    if n > 0 {
      RoundsCount(deviceCode, interval, n - 1);
      RoundsGrow(deviceCode, interval, n - 1);
      assert Rounds(deviceCode, interval, n) == Rounds(deviceCode, interval, n - 1) + Round(deviceCode, interval);
    }
  }

  /** The loop's requests are the rounds it ran, one per consumed answer. */
  lemma {:induction false} PollTraceIsRounds(deviceCode: string, interval: nat, replies: seq<PollReply>)
    ensures PollSpec(deviceCode, interval, replies).trace == Rounds(deviceCode, interval, PollRounds(replies))
    decreases |replies|
  {
    if |replies| > 0 {
      if IsPending(replies[0]) {
        PollTraceIsRounds(deviceCode, interval, replies[1..]);
        RoundsGrow(deviceCode, interval, PollRounds(replies[1..]));
      } else {
        RoundsGrow(deviceCode, interval, 0);
      }
    }
  }

  /** Every `authorization_pending` continues the loop: if no other answer
      came, the loop is still polling after one round per answer. */
  lemma {:induction false} PollAllPending(deviceCode: string, interval: nat, replies: seq<PollReply>)
    requires forall i :: 0 <= i < |replies| ==> IsPending(replies[i])
    ensures PollSpec(deviceCode, interval, replies) == Attempt(StillPending, Rounds(deviceCode, interval, |replies|))
    decreases |replies|
  {
    if |replies| > 0 {
      PollAllPending(deviceCode, interval, replies[1..]);
      RoundsGrow(deviceCode, interval, |replies| - 1);
    }
  }

  /** The first answer that is not `authorization_pending` ends the loop,
      after exactly one round per answer up to and including it; later
      answers are never requested. */
  lemma {:induction false} PollStopsAtFirstDecisive(deviceCode: string, interval: nat, replies: seq<PollReply>, k: nat)
    requires k < |replies| && !IsPending(replies[k])
    requires forall i :: 0 <= i < k ==> IsPending(replies[i])
    ensures PollSpec(deviceCode, interval, replies) == Attempt(Conclude(replies[k]), Rounds(deviceCode, interval, k + 1))
    decreases k
  {
    if k == 0 {
      RoundsGrow(deviceCode, interval, 0);
    } else {
      PollStopsAtFirstDecisive(deviceCode, interval, replies[1..], k - 1);
      RoundsGrow(deviceCode, interval, k);
    }
  }

  /** `slow_down` (section 3.5 of RFC 8628 asks the client to keep polling
      at a longer interval) ends this loop as a fatal error. */
  lemma SlowDownIsFatal(deviceCode: string, interval: nat, replies: seq<PollReply>)
    requires |replies| > 0 && replies[0] == PollError("slow_down")
    ensures PollSpec(deviceCode, interval, replies) ==
            Attempt(LoginFailed(PollRejected("slow_down")), Round(deviceCode, interval))
  {
  }

  /** A device login never sends a refresh request. */
  lemma LoginNeverRefreshes(code: DeviceCodeReply, replies: seq<PollReply>)
    ensures forall e :: e in LoginSpec(code, replies).trace ==> e.TokenRequest? ==> e.grantType == DeviceCodeGrant
  {
    if code.DeviceCodeOk? {
      PollTraceIsRounds(code.deviceCode, code.interval, replies);
    }
  }
}
