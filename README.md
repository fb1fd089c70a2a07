# Token lifecycle of the Qwen OAuth plug-in, in Dafny

This project models `AuthManager` from `src/auth.ts`. The manager hands a host
application a bearer token for the Qwen API. Each time a token is asked for,
it works through three steps in order:

1. It loads the stored credential. It returns that credential's access token
   when the token is not within 5 minutes of its expiry.
2. Otherwise, if the stored credential has a refresh token, it tries a
   refresh-token grant (section 6 of RFC 6749). A rejected exchange, or a
   save that throws, is swallowed.
3. Otherwise it runs the OAuth 2.0 Device Authorization Grant (RFC 8628). It
   requests a device code, then polls the token endpoint with grant type
   `urn:ietf:params:oauth:grant-type:device_code` until an answer other than
   `authorization_pending` arrives.

The modules:

- `Wrappers` (wrappers.dfy): `Option`.
- `Credentials` (credentials.dfy): the persisted record `Creds` and `IsExpired`.
- `OAuth` (oauth.dfy): the three exchanges as values.
  - Replies: `RefreshReply`, `DeviceCodeReply`, `PollReply`.
  - Credential construction: `RefreshResult`, `DeviceCreds`.
  - The functional specification of the poll loop (`PollSpec`, built on `Round` and `Rounds`) and of device login (`LoginSpec`).
- `Auth` (auth_manager.dfy): the class `AuthManager`.
  - Its field `stored` is the credentials file.
  - Its methods mirror the source: `LoadCreds`, `SaveCreds`, `PollForToken` (a loop), `StartDeviceLogin` and `GetValidToken`.
  - `LoadCreds` and `SaveCreds` state the new store outright. `PollForToken`, `StartDeviceLogin` and `GetValidToken` are each proved equal to a specification function (`PollSpec`, `LoginSpec`, `GetValidTokenSpec`). The lemmas state what those functions guarantee.

Modelling choices:

- Every HTTP exchange is an input value. A `RefreshOk` or `PollOk` reply carries `at`, the clock reading the code takes (`Date.now()`) when it builds the new credential. The validity check uses the `now` parameter of `GetValidToken`.
- Methods return a trace of `Event`s: token requests with their grant type, device-code requests, and sleeps. The trace is what "no network call" and "one request per sleep" are stated about.
- A missing credentials file and an unparseable one are both `None`. A save that throws is `writable == false` for `SaveCreds`, and the store keeps its old content. The two saves of `getValidToken` (after a refresh, after a login) have separate flags, `refreshSaved` and `loginSaved`.
- An absent, null or empty `refresh_token` is the empty string. All of these are falsy in the source.
- The poll loop runs over a finite script of replies, one per iteration. When the script runs out with every reply pending, the outcome is `StillPending` (`Waiting` for `GetValidToken`); the source would keep polling.
- `slow_down` is treated as fatal, like every error other than `authorization_pending`. That is what the code does (src/auth.ts:149-150). Section 3.5 of RFC 8628 asks instead for polling to continue with the interval raised by 5 seconds. The model follows the code; `SlowDownIsFatal` records the behaviour.

## Model

| member | source | states |
|---|---|---|
| Credentials.SkewBoundary | src/auth.ts:66-69 | The check is strict: a token at exactly 300000 ms before expiry is valid, and one millisecond later it is expired. |
| Credentials.ExpiryIsMonotone | src/auth.ts:66-69 | Once a token is expired at some instant, it stays expired at every later instant. |
| OAuth.RefreshResult | src/auth.ts:82-89 | A credential exists exactly when the refresh reply is ok. It carries the reply's access token and expiry `at + expires_in*1000`, and no resource URL. It carries the rotated refresh token when the reply has a non-empty one, otherwise the token that was sent, so a non-empty refresh token is never lost. |
| OAuth.DeviceCreds | src/auth.ts:138-145 | A successful poll yields the reply's access and refresh tokens unchanged, an expiry `expires_in*1000` ms after the answer's instant, and no resource URL. |
| OAuth.Conclude | src/auth.ts:138-151 | A reply that is not `authorization_pending` ends the loop. An ok reply yields exactly the credential `DeviceCreds` builds from it. An error body fails with the error string it names. A request that threw fails with `RequestFailed`. |
| OAuth.RoundsCount | src/auth.ts:125-136 | `n` iterations contain exactly `n` sleeps of `interval*1000` ms and `n` device-code token requests, and every request is directly preceded by a sleep. |
| OAuth.PollTraceIsRounds | src/auth.ts:124-152 | The loop's events are exactly one sleep and one request per reply consumed, and it never consumes more replies than it is given. |
| OAuth.PollAllPending | src/auth.ts:148-152 | When every reply is `authorization_pending`, the loop keeps polling. Each reply costs one round, and there is no outcome yet. |
| OAuth.PollStopsAtFirstDecisive | src/auth.ts:124-152 | The first reply that is not pending ends the loop with that reply's conclusion, after exactly one round per reply up to it. Later replies are never requested. |
| OAuth.SlowDownIsFatal | src/auth.ts:149-150 | A `slow_down` error ends the loop as a failure naming `slow_down`, after a single round. |
| OAuth.LoginNeverRefreshes | src/auth.ts:92-152 | A device login sends only device-code grant requests to the token endpoint, never a refresh request. |
| Auth.NoExchangeIffUsable | src/auth.ts:27-31 | A stored, unexpired credential's access token is returned with no request, no refresh, no login and the store unchanged. Conversely, a call that makes no request had such a credential. |
| Auth.RefreshedTokenIsPersisted | src/auth.ts:34-39 | An expired credential with a refresh token, an ok refresh and a save that succeeds: one refresh request is made, and the new access token is returned. The stored record is exactly the refreshed credential: expiry `at + expires_in*1000`, the rotated or the sent refresh token (never empty), and no resource URL. |
| Auth.RefreshFailureFallsBackToLogin | src/auth.ts:34-49 | A rejected refresh or a failed save of the refreshed credential is not reported. The call returns what device login returns, and the device-code request directly follows the refresh request. |
| Auth.NoRefreshWithoutRefreshToken | src/auth.ts:27-48 | With no stored credential (missing or unparseable file) or an empty refresh token, the call is device login alone, and no refresh request is sent. |
| Auth.LoginIffCheaperPathsFail | src/auth.ts:25-50 | Device login starts if and only if the stored credential is unusable and the refresh path did not succeed. |
| Auth.StoreWrittenOnlyOnSuccess | src/auth.ts:36-49 | The store changes only when a token is returned. It then holds the credential of the returned access token. Every failure and every pending login leaves it as it was. |
| Auth.DeviceCodeFailureSurfaces | src/auth.ts:92-103 | A rejected device-code request fails the call with `DeviceCodeFailed`. The trace is the refresh request (if any) followed by the code request alone, so no sleep or poll request happens. The store is unchanged. |
| Auth.FatalPollErrorSurfaces | src/auth.ts:45-50 | Pending replies followed by any other error fail the call with that error string. The call ends after the refresh request (if any), the code request and one round per reply, and nothing is written. |
| Auth.DeviceLoginPersists | src/auth.ts:45-49 | Pending replies followed by an ok reply, with a login save that succeeds: the reply's access token is returned, and exactly that reply's credential is stored (expiry `at + expires_in*1000`, no resource URL). The trace is the refresh request (if any), the code request and `k + 1` rounds, one per reply up to the ok one. This holds also when the refresh exchange was ok but its own save failed. |
| Auth.LoginRunPersists | src/auth.ts:47-49 | The login step alone, after pending replies and an ok reply whose save succeeds: it returns and stores that reply's credential, after the code request and one round per reply up to the ok one. |
| Auth.LoginAfterCheaperPaths | src/auth.ts:29-49 | When the stored credential is unusable and the refresh path did not succeed, the call ends as device login ends, and its trace is the refresh request (if any) followed by the login's trace. |
| Auth.AuthManager.constructor | src/auth.ts:21-23 | The manager starts over the given content of the credentials file. |
| Auth.AuthManager.LoadCreds | src/auth.ts:52-59 | Loading returns the stored credential, or `None` for a missing or unparseable file. |
| Auth.AuthManager.SaveCreds | src/auth.ts:61-64 | Saving replaces the whole record when the file can be written and reports failure otherwise, leaving the old content. |
| Auth.AuthManager.PollForToken | src/auth.ts:124-153 | The loop's outcome and events are those of `PollSpec`, which `PollStopsAtFirstDecisive`, `PollAllPending` and `PollTraceIsRounds` characterise. It makes at most one round per reply. |
| Auth.AuthManager.StartDeviceLogin | src/auth.ts:92-122 | The login's outcome and events are those of `LoginSpec`. A rejected code request fails with `DeviceCodeFailed` after that single request. Otherwise the code request comes first. |
| Auth.AuthManager.GetValidToken | src/auth.ts:25-50 | The returned outcome, the events and the new store are those of `GetValidTokenSpec` applied to the old store. Each of the two saves has its own success flag. The `Auth` lemmas characterise `GetValidTokenSpec`. |

## Left out

- src/index.ts, the host-plugin adapter: it only sets an `Authorization: Bearer` header and delegates to the host's `fetch`. Its module-level singleton is wiring.
- HTTP transport, JSON request bodies and the client id and scope constants: `src/constants.js` is not part of this model. Every exchange is an abstract reply value.
- Filesystem details: the per-user path built from the home directory, `mkdir`, pretty-printing, and how `JSON.parse` treats partial or odd objects. For example, a stored `{}` has no expiry, so the source counts it as never expired; here every record is well-formed or `None`. The save/load round trip of the JSON encoding is therefore not modelled; in the model it holds by the `SaveCreds` and `LoadCreds` contracts.
- Auth.AuthManager.SaveCreds: a write that fails half-way may leave a truncated file (read back as `None`). The model keeps the old content instead.
- The operator notification (verification URL and user code) and every `console.error` line: side-effect text only. The `userCode` and `verificationUri` fields are kept in `DeviceCodeOk` but not used.
- Real time: `setTimeout` and `Date.now()` are a `Sleep` event and integer clock readings. A missing `interval` (which makes the source sleep 0 ms) is not modelled; `interval` is a `nat`.
- JavaScript number semantics of `expires_in * 1000`: the model uses unbounded integer arithmetic.
- Concurrent callers of `getValidToken` and cancellation of a pending poll: the source has no locking or cancellation.
- The unbounded `while (true)` loop is modelled over a finite list of replies. Running out of replies ends the model in `StillPending` rather than polling forever.
- The text of error messages (`Failed to get device code`, `Auth failed: <error>`) is not modelled; failures are the `AuthError` values, with the provider's error string kept in `PollRejected`.
