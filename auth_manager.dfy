/** The token-lifecycle manager: on every request for a token it tries the
    stored credential, then a silent refresh, then a device login, and
    persists what it obtains. */
module Auth {
  import opened Wrappers
  import opened Credentials
  import opened OAuth

  /** What `getValidToken` does for its caller: resolve with an access token,
      reject with an error, or (when the scripted poll answers run out)
      still be waiting for the user. */
  datatype TokenOutcome =
    | Token(accessToken: string)
    | Failed(error: AuthError)
    | Waiting

  /** One call of `getValidToken`: its outcome, the store afterwards and the
      network and clock events in order. */
  datatype Run = Run(outcome: TokenOutcome, store: Option<Creds>, trace: seq<Event>)

  /** The stored credential can be returned without any exchange. */
  predicate IsUsable(stored: Option<Creds>, now: int)
  {
    stored.Some? && !IsExpired(stored.value, now)
  }

  /** A refresh is attempted only with a stored, non-empty refresh token. */
  predicate CanRefresh(stored: Option<Creds>)
  {
    stored.Some? && stored.value.refreshToken != ""
  }

  /** The refresh path succeeds: the exchange is ok and its credential saved. */
  predicate RefreshSucceeds(stored: Option<Creds>, refresh: RefreshReply, refreshSaved: bool)
  {
    CanRefresh(stored) && RefreshResult(stored.value.refreshToken, refresh).Some? && refreshSaved
  }

  /** Device login followed by saving its credential. */
  function LoginRun(stored: Option<Creds>, loginSaved: bool, code: DeviceCodeReply, replies: seq<PollReply>): Run
  {
    var login := LoginSpec(code, replies);
    match login.outcome
    case LoggedIn(creds) =>
      if loginSaved then Run(Token(creds.accessToken), Some(creds), login.trace)
      else Run(Failed(SaveFailed), stored, login.trace)
    case LoginFailed(error) => Run(Failed(error), stored, login.trace)
    case StillPending => Run(Waiting, stored, login.trace)
  }

  /** The decision sequence of `getValidToken` as a function of the store,
      the clock reading and the provider's answers. */
  function GetValidTokenSpec(stored: Option<Creds>, now: int, refresh: RefreshReply, refreshSaved: bool, loginSaved: bool,
                             code: DeviceCodeReply, replies: seq<PollReply>): Run
  {
    if IsUsable(stored, now) then Run(Token(stored.value.accessToken), stored, [])
    else
      var attempt := if CanRefresh(stored) then [TokenRequest(RefreshTokenGrant, stored.value.refreshToken)] else [];
      if RefreshSucceeds(stored, refresh, refreshSaved) then
        var creds := RefreshResult(stored.value.refreshToken, refresh).value;
        Run(Token(creds.accessToken), Some(creds), attempt)
      else
        var login := LoginRun(stored, loginSaved, code, replies);
        Run(login.outcome, login.store, attempt + login.trace)
  }

  /** A usable stored credential is returned as it is, with no exchange and
      no write; every other call makes at least one request. */
  lemma NoExchangeIffUsable(stored: Option<Creds>, now: int, refresh: RefreshReply, refreshSaved: bool, loginSaved: bool,
                            code: DeviceCodeReply, replies: seq<PollReply>)
    ensures IsUsable(stored, now) ==>
              GetValidTokenSpec(stored, now, refresh, refreshSaved, loginSaved, code, replies) == Run(Token(stored.value.accessToken), stored, [])
    ensures GetValidTokenSpec(stored, now, refresh, refreshSaved, loginSaved, code, replies).trace == [] ==> IsUsable(stored, now)
  {
  }

  /** An expired credential with a refresh token is refreshed: one refresh
      request, then the new credential is returned and persisted. */
  lemma RefreshedTokenIsPersisted(stored: Option<Creds>, now: int, refresh: RefreshReply, refreshSaved: bool, loginSaved: bool,
                                  code: DeviceCodeReply, replies: seq<PollReply>)
    requires !IsUsable(stored, now) && RefreshSucceeds(stored, refresh, refreshSaved)
    ensures var run := GetValidTokenSpec(stored, now, refresh, refreshSaved, loginSaved, code, replies);
            && run.outcome == Token(refresh.grant.accessToken)
            && run.store == RefreshResult(stored.value.refreshToken, refresh)
            && run.store.Some? && run.store.value.accessToken == refresh.grant.accessToken
            && run.store.value.expiryDate == refresh.at + refresh.grant.expiresIn * 1000
            && run.store.value.refreshToken != ""
            && run.trace == [TokenRequest(RefreshTokenGrant, stored.value.refreshToken)]
  {
  }

  /** A failed refresh (rejected exchange or failed save) is not reported:
      the call goes on to device login, whose result it returns, and whose
      own save may still succeed. */
  lemma RefreshFailureFallsBackToLogin(stored: Option<Creds>, now: int, refresh: RefreshReply, refreshSaved: bool, loginSaved: bool,
                                       code: DeviceCodeReply, replies: seq<PollReply>)
    requires !IsUsable(stored, now) && CanRefresh(stored) && !RefreshSucceeds(stored, refresh, refreshSaved)
    ensures var run := GetValidTokenSpec(stored, now, refresh, refreshSaved, loginSaved, code, replies);
            var login := LoginRun(stored, loginSaved, code, replies);
            && run.outcome == login.outcome && run.store == login.store
            && run.trace == [TokenRequest(RefreshTokenGrant, stored.value.refreshToken)] + login.trace
            && run.trace[1] == DeviceCodeRequest
  {
  }

  /** Without a stored refresh token (no file, unparseable file, empty
      token) no refresh is attempted: device login runs directly. */
  lemma NoRefreshWithoutRefreshToken(stored: Option<Creds>, now: int, refresh: RefreshReply, refreshSaved: bool, loginSaved: bool,
                                     code: DeviceCodeReply, replies: seq<PollReply>)
    requires !IsUsable(stored, now) && !CanRefresh(stored)
    ensures GetValidTokenSpec(stored, now, refresh, refreshSaved, loginSaved, code, replies) == LoginRun(stored, loginSaved, code, replies)
    ensures forall e :: e in GetValidTokenSpec(stored, now, refresh, refreshSaved, loginSaved, code, replies).trace ==>
              e.TokenRequest? ==> e.grantType == DeviceCodeGrant
  {
    LoginNeverRefreshes(code, replies);
  }

  /** Device login is started exactly when the stored credential is not
      usable and the refresh path did not succeed. */
  lemma LoginIffCheaperPathsFail(stored: Option<Creds>, now: int, refresh: RefreshReply, refreshSaved: bool, loginSaved: bool,
                                 code: DeviceCodeReply, replies: seq<PollReply>)
    ensures DeviceCodeRequest in GetValidTokenSpec(stored, now, refresh, refreshSaved, loginSaved, code, replies).trace <==>
            !IsUsable(stored, now) && !RefreshSucceeds(stored, refresh, refreshSaved)
  {
  }

  /** The store changes only when a token is handed out, and then it holds
      exactly the credential whose access token is returned. */
  lemma StoreWrittenOnlyOnSuccess(stored: Option<Creds>, now: int, refresh: RefreshReply, refreshSaved: bool, loginSaved: bool,
                                  code: DeviceCodeReply, replies: seq<PollReply>)
    ensures var run := GetValidTokenSpec(stored, now, refresh, refreshSaved, loginSaved, code, replies);
            run.store != stored ==> run.outcome.Token? && run.store.Some? && run.store.value.accessToken == run.outcome.accessToken
    ensures var run := GetValidTokenSpec(stored, now, refresh, refreshSaved, loginSaved, code, replies);
            !run.outcome.Token? ==> run.store == stored
  {
  }

  /** A rejected device-code request fails the call before any poll and
      leaves the store unchanged. */
  lemma DeviceCodeFailureSurfaces(stored: Option<Creds>, now: int, refresh: RefreshReply, refreshSaved: bool, loginSaved: bool,
                                  replies: seq<PollReply>)
    requires !IsUsable(stored, now) && !RefreshSucceeds(stored, refresh, refreshSaved)
    ensures var run := GetValidTokenSpec(stored, now, refresh, refreshSaved, loginSaved, DeviceCodeRejected, replies);
            var attempt := if CanRefresh(stored) then [TokenRequest(RefreshTokenGrant, stored.value.refreshToken)] else [];
            && run.outcome == Failed(DeviceCodeFailed) && run.store == stored
            && run.trace == attempt + [DeviceCodeRequest]
            && forall e :: e in run.trace ==> !e.Sleep?
  {
  }

  /** After a run of `authorization_pending` answers, a fatal poll error fails
      the call with that error string, after one sleep and one request per
      answer, and nothing is written. */
  lemma FatalPollErrorSurfaces(stored: Option<Creds>, now: int, refresh: RefreshReply, refreshSaved: bool, loginSaved: bool,
                               code: DeviceCodeReply, replies: seq<PollReply>, k: nat)
    requires !IsUsable(stored, now) && !RefreshSucceeds(stored, refresh, refreshSaved) && code.DeviceCodeOk?
    requires k < |replies| && replies[k].PollError? && replies[k].error != AuthorizationPending
    requires forall i :: 0 <= i < k ==> IsPending(replies[i])
    ensures var run := GetValidTokenSpec(stored, now, refresh, refreshSaved, loginSaved, code, replies);
            var attempt := if CanRefresh(stored) then [TokenRequest(RefreshTokenGrant, stored.value.refreshToken)] else [];
            && run.outcome == Failed(PollRejected(replies[k].error)) && run.store == stored
            && run.trace == attempt + [DeviceCodeRequest] + Rounds(code.deviceCode, code.interval, k + 1)
  {
    PollStopsAtFirstDecisive(code.deviceCode, code.interval, replies, k);
  }

  /** The login step alone: after pending answers, an ok answer whose save
      succeeds yields that answer's credential after `k + 1` rounds. */
  lemma LoginRunPersists(stored: Option<Creds>, loginSaved: bool, code: DeviceCodeReply, replies: seq<PollReply>, k: nat)
    requires code.DeviceCodeOk? && k < |replies| && replies[k].PollOk? && loginSaved
    requires forall i :: 0 <= i < k ==> IsPending(replies[i])
    ensures LoginRun(stored, loginSaved, code, replies) ==
            Run(Token(replies[k].grant.accessToken), Some(DeviceCreds(replies[k].grant, replies[k].at)),
                [DeviceCodeRequest] + Rounds(code.deviceCode, code.interval, k + 1))
  {
    PollStopsAtFirstDecisive(code.deviceCode, code.interval, replies, k);
  }

  /** After a run of `authorization_pending` answers, the first ok answer
      ends the login; its tokens are returned and persisted with an expiry
      counted from the instant of that answer. */
  lemma DeviceLoginPersists(stored: Option<Creds>, now: int, refresh: RefreshReply, refreshSaved: bool, loginSaved: bool,
                            code: DeviceCodeReply, replies: seq<PollReply>, k: nat)
    requires !IsUsable(stored, now) && !RefreshSucceeds(stored, refresh, refreshSaved) && code.DeviceCodeOk?
    requires k < |replies| && replies[k].PollOk? && loginSaved
    requires forall i :: 0 <= i < k ==> IsPending(replies[i])
    ensures var run := GetValidTokenSpec(stored, now, refresh, refreshSaved, loginSaved, code, replies);
            var grant := replies[k].grant;
            var attempt := if CanRefresh(stored) then [TokenRequest(RefreshTokenGrant, stored.value.refreshToken)] else [];
            && run.outcome == Token(grant.accessToken)
            && run.store == Some(Creds(grant.accessToken, grant.refreshToken, replies[k].at + grant.expiresIn * 1000, None))
            && run.trace == attempt + ([DeviceCodeRequest] + Rounds(code.deviceCode, code.interval, k + 1))
  {
    LoginAfterCheaperPaths(stored, now, refresh, refreshSaved, loginSaved, code, replies);
    LoginRunPersists(stored, loginSaved, code, replies, k);
  }

  /** When the cheaper paths fail, the call is the refresh attempt (if any)
      followed by device login. */
  lemma LoginAfterCheaperPaths(stored: Option<Creds>, now: int, refresh: RefreshReply, refreshSaved: bool, loginSaved: bool,
                               code: DeviceCodeReply, replies: seq<PollReply>)
    requires !IsUsable(stored, now) && !RefreshSucceeds(stored, refresh, refreshSaved)
    ensures var login := LoginRun(stored, loginSaved, code, replies);
            var attempt := if CanRefresh(stored) then [TokenRequest(RefreshTokenGrant, stored.value.refreshToken)] else [];
            GetValidTokenSpec(stored, now, refresh, refreshSaved, loginSaved, code, replies) ==
            Run(login.outcome, login.store, attempt + login.trace)
  {
  }

  class AuthManager {
    /** The credentials file; a missing and an unparseable file are both None. */
    var stored: Option<Creds>

    constructor (initial: Option<Creds>)
      ensures stored == initial
    {
      stored := initial;
    }

    method LoadCreds() returns (creds: Option<Creds>)
      ensures creds == stored
    {
      creds := stored;
    }

    /** Replaces the whole record; when the file cannot be written the save
        throws (`saved` is false) and the store keeps its old content. */
    method SaveCreds(creds: Creds, writable: bool) returns (saved: bool)
      modifies this
      ensures saved == writable
      ensures stored == if writable then Some(creds) else old(stored)
    {
      saved := writable;
      if writable {
        stored := Some(creds);
      }
    }

    /** The poll loop: per iteration one sleep, one request, one answer. */
    method PollForToken(deviceCode: string, interval: nat, replies: seq<PollReply>)
      returns (outcome: LoginOutcome, trace: seq<Event>)
      ensures Attempt(outcome, trace) == PollSpec(deviceCode, interval, replies)
      ensures |trace| <= 2 * |replies|
    {
      var i := 0;
      trace := [];
      while i < |replies|
        invariant 0 <= i <= |replies|
        invariant forall j :: 0 <= j < i ==> IsPending(replies[j])
        invariant trace == Rounds(deviceCode, interval, i)
      {
        RoundsGrow(deviceCode, interval, i);
        trace := trace + Round(deviceCode, interval);
        var reply := replies[i];
        if !IsPending(reply) {
          PollStopsAtFirstDecisive(deviceCode, interval, replies, i);
          outcome := Conclude(reply);
          return;
        }
        i := i + 1;
      }
      PollAllPending(deviceCode, interval, replies);
      outcome := StillPending;
    }

    /** Device login: a rejected code request fails before any poll. */
    method StartDeviceLogin(code: DeviceCodeReply, replies: seq<PollReply>)
      returns (outcome: LoginOutcome, trace: seq<Event>)
      ensures Attempt(outcome, trace) == LoginSpec(code, replies)
      ensures code.DeviceCodeRejected? ==> outcome == LoginFailed(DeviceCodeFailed) && trace == [DeviceCodeRequest]
      ensures code.DeviceCodeOk? ==> trace[0] == DeviceCodeRequest
    {
      trace := [DeviceCodeRequest];
      if code.DeviceCodeRejected? {
        outcome := LoginFailed(DeviceCodeFailed);
        return;
      }
      var pollTrace;
      outcome, pollTrace := PollForToken(code.deviceCode, code.interval, replies);
      trace := trace + pollTrace;
    }

    method GetValidToken(now: int, refresh: RefreshReply, refreshSaved: bool, loginSaved: bool,
                         code: DeviceCodeReply, replies: seq<PollReply>)
      returns (outcome: TokenOutcome, trace: seq<Event>)
      modifies this
      ensures Run(outcome, stored, trace) == GetValidTokenSpec(old(stored), now, refresh, refreshSaved, loginSaved, code, replies)
    {
      trace := [];
      var creds := LoadCreds();
      if creds.Some? && !IsExpired(creds.value, now) {
        return Token(creds.value.accessToken), trace;
      }
      if creds.Some? && creds.value.refreshToken != "" {
        trace := trace + [TokenRequest(RefreshTokenGrant, creds.value.refreshToken)];
        var refreshed := RefreshResult(creds.value.refreshToken, refresh);
        if refreshed.Some? {
          var saved := SaveCreds(refreshed.value, refreshSaved);
          if saved {
            return Token(refreshed.value.accessToken), trace;
          }
        }
      }
      var login, loginTrace := StartDeviceLogin(code, replies);
      trace := trace + loginTrace;
      match login
      case LoggedIn(newCreds) =>
        var saved := SaveCreds(newCreds, loginSaved);
        outcome := if saved then Token(newCreds.accessToken) else Failed(SaveFailed);
      case LoginFailed(error) =>
        outcome := Failed(error);
      case StillPending =>
        outcome := Waiting;
    }
  }
}
