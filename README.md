# neofs-oauthz: login transactions and bearer-token issuance

neofs-oauthz gives out short-lived NeoFS bearer tokens to users who log in with an
external OAuth2 provider (Google or GitHub). This project models its core:

- **The provider registry and the single-use state store** (`auth/services.go`).
  - A login stores a random `state` mapped to the provider it asked.
  - The callback looks the state up and deletes it in one step, so a state can be
    consumed at most once. This is the CSRF protection of sections 4.1.1 and
    10.12 of RFC 6749.
  - `Services` is a class whose `states` map is updated in place by `AddState` and
    `RemoveState`.
  - The value function `TakeState` states what the lookup-and-delete computes.
- **The `/login` and `/callback` handlers** (`auth/authenticator.go`).
  - Each handler is a method of the `Authenticator` class, changing the shared
    store.
  - Each method is proved equal to a function of the old store (`Login`,
    `UserInfo`, `BearerToken`, `CallbackOutcome`).
  - The lemmas state what a login or a callback does: its status, redirect and
    cookies, and the states it records and burns.
- **The bearer token generator** (`bearer/bearer.go`, `NewBearer`).
  - It hashes the email and derives the epochs of the object lifetime by
    truncating division.
  - It builds the ordered extended ACL (eACL) table: Allow-Put with nine filters,
    then Deny-Put, both for "others".
  - It sets the expiry and the optional subject, then signs and encodes the
    token.
  - `Eacl.Decide` evaluates such a table, first matching record wins. Under it
    the table allows an upload by "others" exactly for the permitted objects,
    and denies every other upload by "others". Requests by other roles, and
    other operations, get no decision from the table.
- **Start-up** (`cmd/neofs-oauthz/app.go`).
  - `getKey` refuses an empty wallet path.
  - `initAuthCfg` applies the zero-value defaults, checks the container and user
    IDs, and builds one OAuth service per `oauth.<name>` section.
  - `initPool` applies the timeout defaults and enumerates `peers.0`, `peers.1`,
    ... up to the first index that is not set.
  - The class `App` does these steps in place, and each method is proved against
    a function (`AuthCfgOf`, `PoolParamsOf`, `Startup`).
  - A fatal log is modelled as start-up stopping with that log message.

Go's fixed-width integers are written out in `Common`:

- `uint64` addition wraps around.
- `uint64(x)` conversion wraps around.
- `int64` division truncates toward zero.

The library and network calls the core makes are parameters of the model:

- SHA-256, signing and encoding (`Bearer.Crypto`);
- the OAuth2 provider (`Services.Provider`);
- the network's epoch and epoch length (`Authenticator.NetworkInfo`);
- the 8 random bytes of a login;
- the wallet loader;
- the base58 decoders of the container and user IDs (`App.Codecs`).

### Notes on the code

The model follows the code in each case below.

- The eACL table has **no** record of its own for objects without a content
  type (`bearer/bearer.go:45-64`).
  - Under the first-match-wins reading in `Eacl`, a filter on a header the object
    does not carry does not hold. Such an object fails the Allow record's
    content-type filters and falls through to the Deny record
    (`Bearer.MissingContentTypeDenied`).
- The content-type denylist has five MIME types plus `""`. It does not include
  `application/x-javascript` (`bearer/bearer.go:49-54`).
- The expiration filter compares with string equality (`MatchStringEqual`),
  not "at most" (`bearer/bearer.go:58`).
  - An object is only permitted when its expiration marker is exactly the bound
    (`Bearer.Permitted`).
- `initAuthCfg` replaces only a zero object lifetime by the default
  (`cmd/neofs-oauthz/app.go:220-223`). A negative one is kept. For a
  lifetime of minus one epoch or less, `uint64(ms / msPerEpoch)` then wraps
  around to nearly 2^64 (`Bearer.EpochsWrap`), so the expiration marker is the wrapped sum.
- `getBearerToken` calls `NewBearer(email, epoch)` with two arguments
  (`auth/authenticator.go:163`), but `NewBearer` takes a third, `msPerEpoch`
  (`bearer/bearer.go:40`).
  - The model passes the epoch length from the same network query as an extra
    input.
- `initAuthCfg` sets `BearerCookieName` (`cmd/neofs-oauthz/app.go:244`), but
  `auth.Config` has no such field (`auth/authenticator.go:31-39`).
  - The model's `AuthConfig` carries it.
  - `Callback` writes the cookie under the fixed name `Bearer`
    (`auth/authenticator.go:115`), as the code does.
- `auth.Config` has `Gateway` and `ContainerID` strings. They are only copied
  into `templateModel` (`auth/authenticator.go:54-57`), which `Index`
  (`auth/authenticator.go:62-67`) never reads. `initAuthCfg` does not set
  them. They are not modelled.

## Model

| member | source | states |
|---|---|---|
| Common.ToUint64 | bearer/bearer.go:43 | `uint64(x)` is `x` in range and congruent to `x` modulo 2^64 otherwise |
| Common.Add64 | bearer/bearer.go:57 | `uint64` addition: the exact sum below 2^64, the sum minus 2^64 on overflow |
| Common.TruncDiv | bearer/bearer.go:43 | Go's `/` truncates toward zero, for every combination of signs: `a / b` for non-negative operands, `-((-a) / b)` for a negative dividend, `-(a / -b)` for a negative divisor, `(-a) / (-b)` for both negative |
| Common.TruncDivBounds | bearer/bearer.go:43 | for a non-negative dividend and a positive divisor, the truncated quotient is the largest `q` with `q * b <= a` |
| Encoding.HexEncode | auth/authenticator.go:91 | `hex.EncodeToString`: two lowercase hex digits per byte |
| Encoding.HexDecode | auth/authenticator.go:91 | a decoded byte string has half the length of the text; it undoes `HexEncode` (see `HexRoundTrip`) |
| Encoding.HexRoundTrip | auth/authenticator.go:91 | decoding the hex encoding of any bytes gives the bytes back |
| Encoding.HexEncodeInjective | auth/authenticator.go:91 | different bytes have different hex encodings |
| Encoding.FormatUint | bearer/bearer.go:57 | `strconv.FormatUint(n, 10)`: a non-empty string of decimal digits without a leading zero |
| Encoding.ParseDecimal | bearer/bearer.go:57 | defined exactly on non-empty strings of decimal digits |
| Encoding.DecimalRoundTrip | bearer/bearer.go:57-58 | parsing the decimal rendering of `n` gives `n` back |
| Encoding.FormatUintInjective | bearer/bearer.go:57 | different numbers have different decimal renderings |
| Encoding.FormatUintLength | cmd/neofs-oauthz/app.go:115 | a number whose rendering fits in `k` characters is below 10^k |
| Eacl.ObjectAttributeFilter | bearer/bearer.go:48 | an object-header filter with the given matcher, key and value |
| Eacl.PayloadLengthFilter | bearer/bearer.go:55 | a payload-length filter whose decimal value parses back to the size |
| Eacl.Decide | bearer/bearer.go:46 | first match wins: `None` exactly when no record applies, otherwise the action of the first record that applies |
| Bearer.HashedEmail | bearer/bearer.go:41 | 64 lowercase hex characters that decode to the SHA-256 digest of the email |
| Bearer.Milliseconds | bearer/bearer.go:43 | `Duration.Milliseconds()` truncates toward zero: for a non-negative duration `ms * 10^6 <= d < (ms + 1) * 10^6`; for a negative one `ms = -((-d) / 10^6)`, which is at most 0 |
| Bearer.Epochs | bearer/bearer.go:43 | for a non-negative lifetime and a positive epoch length, `epochs * msPerEpoch <= lifetime_ms < (epochs + 1) * msPerEpoch` |
| Bearer.EpochsWrap | bearer/bearer.go:43 | a lifetime of minus one epoch or less wraps around in `uint64(...)`: the epochs are 2^64 minus the truncated quotient, at least 2^63 |
| Bearer.AllowFilters | bearer/bearer.go:47-58 | nine filters, all on object headers, the first requiring the email attribute to equal the hash |
| Bearer.PolicyTable | bearer/bearer.go:45-64 | a table for the configured container with two records, Allow first and Deny second |
| Bearer.MintedBody | bearer/bearer.go:41-71 | the unsigned token: expiry `epoch + LifeTime`, the configured user as subject, and the two-record table whose first filter carries the hash of the email; the table is exactly `PolicyTable` over the email hash and the expiration bound `epoch + LifeTime + epochs` |
| Bearer.NewBearer | bearer/bearer.go:40-78 | succeeds exactly when signing succeeds, else the signing error; on success the token is the encoding of the minted body with its signature, and the label is 64 lowercase hex characters equal to the value of the table's email filter |
| Bearer.TableShape | bearer/bearer.go:45-64 | the table is for the container and holds exactly Allow-Put then Deny-Put, both for "others", and the Deny record has no filters |
| Bearer.AllowFiltersShape | bearer/bearer.go:47-58 | the Allow filters in order, each on object headers: the email attribute equals the hash, the content type differs from each denied type, the payload length is at most the maximum, and the expiration marker is exactly the decimal rendering of the bound |
| Bearer.EpochsWithinLifetime | bearer/bearer.go:43 | for a non-negative lifetime and a positive epoch length, the added epochs never cover more than the configured object lifetime |
| Bearer.ExpiryNotAfterBound | bearer/bearer.go:57-71 | without overflow the token expiry `epoch + LifeTime` is at most the bound `epoch + LifeTime + epochs` |
| Bearer.ExpirationExample | bearer/bearer.go:43-58 | epoch 100, lifetime 30, four days of object lifetime and four-hour epochs give the marker "154" |
| Bearer.SubjectIffConfigured | bearer/bearer.go:68-70 | the token has a subject exactly when a user ID is configured, and it is that ID |
| Bearer.AllowRecordAppliesIff | bearer/bearer.go:47-60 | the Allow record applies to an upload by "others" exactly when the object is permitted |
| Bearer.PermittedAllowApplies | bearer/bearer.go:47-60 | a permitted object satisfies every filter of the Allow record |
| Bearer.AllowAppliesPermitted | bearer/bearer.go:47-60 | an object that satisfies every Allow filter is permitted |
| Bearer.PutByOthersDecided | bearer/bearer.go:45-64 | every upload by "others" is decided, allowed exactly for permitted objects and denied otherwise |
| Bearer.MissingContentTypeDenied | bearer/bearer.go:49-64 | an object without a content type is denied |
| Bearer.MissingContentTypeAllowedIfLenient | bearer/bearer.go:49-64 | the refusal of an object without a content type depends on the missing-header reading: the same object meets every Allow filter if a "not equal" filter holds on a missing header, and is denied under `Eacl.Decide` |
| Bearer.LenientAllowFilters | bearer/bearer.go:47-58 | under the lenient missing-header reading, every Allow filter holds on an empty object without a content type that carries the email hash and the expiration marker |
| Bearer.OtherRequestsUndecided | bearer/bearer.go:47-63 | the table decides nothing for other operations or other roles |
| Bearer.OrderMatters | bearer/bearer.go:46 | swapping the two records turns some allowed upload into a denied one |
| Services.NewServiceConfig | auth/services.go:47-59 | succeeds exactly for "google" and "github", keeping the name and OAuth config, and fails with "unsupported service <name>" otherwise |
| Services.GoogleRequest | auth/services.go:127-129 | a GET of the userinfo URL followed by the token, no headers |
| Services.GithubRequest | auth/services.go:131-139 | a GET of the fixed user URL with the single header `Authorization: token <token>` |
| Services.UserInfoRequestInjective | auth/services.go:96-139 | each service's request carries the access token: different tokens give different requests |
| Services.GetUserEmail | auth/services.go:96-125 | the email is what the provider returns for that service's user-info request carrying the access token |
| Services.TakeState | auth/services.go:69-78 | a known state yields its provider and leaves the store without that state; an unknown one yields "invalid oauth state" and the same store; no other entry changes |
| Services.TakeAfterAdd | auth/services.go:62-77 | a state just added is consumed with its provider and removed |
| Services.TakeTwiceFails | auth/services.go:72-76 | a state cannot be consumed twice in a row |
| Services.TakeUnknownKeepsStore | auth/services.go:72-75 | consuming an unknown state leaves the store unchanged |
| Services.AddFrame | auth/services.go:64 | adding maps the state to the service and changes no other entry |
| Services.Services.constructor | auth/services.go:35-44 | the configured services and an empty state store |
| Services.Services.AddState | auth/services.go:62-66 | the new store is the old one with `state -> service`; no other entry changes |
| Services.Services.RemoveState | auth/services.go:69-78 | equals `TakeState` of the old store: success exactly for a stored state, which is deleted and returned; otherwise the error and the store unchanged |
| Services.Services.Oauth | auth/services.go:81-84 | found exactly when the name is configured, and then it is that service |
| Services.SingleUseScenario | auth/services.go:62-78 | add, consume and consume again: the first returns the provider, the second fails, and only that state is gone |
| Authenticator.QueryValues | auth/authenticator.go:71 | the values given for a key: non-empty exactly when the key occurs, and the first value is that of its first occurrence |
| Authenticator.FormValue | auth/authenticator.go:99 | `r.FormValue`: empty when the key does not occur, and otherwise the value of the key's first occurrence |
| Authenticator.Issue | auth/authenticator.go:112-126 | a 307 redirect to RedirectURL with `Authorization: Bearer <token>` and exactly two cookies, the token then the hash, both for 600 seconds |
| Authenticator.Login | auth/authenticator.go:70-95 | an error response keeps the store; a changed store comes with a 307 redirect; a redirect sets no cookies and no Authorization header |
| Authenticator.UserInfo | auth/authenticator.go:129-150 | the new store is the old one with the state consumed, whatever happens after the lookup |
| Authenticator.BearerToken | auth/authenticator.go:152-164 | a failed network query is passed through; a success carries a 64-character lowercase hex label |
| Authenticator.CallbackOutcome | auth/authenticator.go:98-127 | the state in the query is consumed whatever the outcome |
| Authenticator.Authenticator.constructor | auth/authenticator.go:47-59 | the services are the configured OAuth services, with an empty state store |
| Authenticator.Authenticator.LogInWith | auth/authenticator.go:70-95 | the response and the new store are those of `Login` on the old store |
| Authenticator.Authenticator.Callback | auth/authenticator.go:98-127 | the response and the new store are those of `CallbackOutcome` on the old store |
| Authenticator.Authenticator.GetUserInfo | auth/authenticator.go:129-150 | the email or error, and the new store, are those of `UserInfo` on the old store |
| Authenticator.Authenticator.GetBearerToken | auth/authenticator.go:152-164 | the result of `BearerToken`; the label has 64 characters |
| Authenticator.LoginWithoutService | auth/authenticator.go:71-76 | no `service` parameter, or an empty first value: 400 "no valid service param" and the store unchanged |
| Authenticator.LoginUnknownService | auth/authenticator.go:78-83 | a service that is not configured: 400 "unsupported service" and the store unchanged |
| Authenticator.LoginWithoutRandomness | auth/authenticator.go:85-89 | when no random bytes can be drawn: 500 "unable generate state" and the store unchanged |
| Authenticator.LoginIssuesState | auth/authenticator.go:85-94 | success stores a 16-character lowercase hex state for the requested service and redirects 307 to the provider's URL for that state |
| Authenticator.StatesFromDistinctBytesDiffer | auth/authenticator.go:85-91 | different random bytes give different states |
| Authenticator.CallbackBurnsState | auth/authenticator.go:129-133 | a stored state is deleted by the callback whatever the exchange, the email fetch, the epoch query or the signing then do |
| Authenticator.CallbackUnknownState | auth/authenticator.go:99-104 | an unknown or used state: redirect 307 to "/", no cookies, the store unchanged |
| Authenticator.CallbackReplayFails | auth/authenticator.go:99-104 | the same callback a second time redirects to "/" and changes nothing |
| Authenticator.CallbackIdentityFailure | auth/authenticator.go:99-104 | a failed code exchange or email fetch redirects 307 to "/" with no cookies |
| Authenticator.CallbackServerError | auth/authenticator.go:106-110 | with a verified email, a failed epoch query or signing gives 500 with the error's text and no cookies |
| Authenticator.CallbackSuccess | auth/authenticator.go:112-126 | on success: `Authorization: Bearer <token>`, then cookie `Bearer` with the token and cookie `X-Attribute-Email` with the hash, both for 600 seconds, and a 307 redirect to RedirectURL |
| Authenticator.CookiesOnlyOnSuccess | auth/authenticator.go:97-127 | cookies are only set after a stored state is consumed, on the redirect to RedirectURL: exactly two, for 600 seconds, the second a 64-character hash |
| Authenticator.LoginThenCallback | auth/authenticator.go:69-164 | a login followed by its callback, with a cooperating provider and network, issues the token for the verified email and leaves the state gone |
| Authenticator.CallbackQuery | auth/authenticator.go:99 | the `state` and `code` values of a callback query |
| Authenticator.ReplayScenario | auth/authenticator.go:69-127 | a login, its callback and the same callback again on one authenticator: the second callback redirects to "/" and the login's state is gone |
| App.FirstSegment | cmd/neofs-oauthz/app.go:253 | the prefix of a key before its first dot |
| App.GetKey | cmd/neofs-oauthz/app.go:146-189 | an empty wallet path fails with "wallet path can't be empty"; otherwise the outcome of the wallet loader (which stands for opening, choosing the account and decrypting) for that path |
| App.GetKeyNeedsPath | cmd/neofs-oauthz/app.go:146-150 | with an empty wallet path `getKey` fails with "wallet path can't be empty" whatever the wallet holds; otherwise it is the wallet's outcome for that path |
| App.ServiceMapAdd | cmd/neofs-oauthz/app.go:265-269 | adding the service of one more section to the map |
| App.AuthCfgOf | cmd/neofs-oauthz/app.go:191-271 | fails only with a malformed container ID, a malformed user ID or an unsupported service; on success the bearer key is the given key |
| App.AuthCfgParts | cmd/neofs-oauthz/app.go:191-271 | a successful config decoded the container ID, built every service, and is the defaulted settings with those services |
| App.ServiceMapEntries | cmd/neofs-oauthz/app.go:251-270 | the service map has exactly the section names as keys, each built from its section with the callback URL and that section's client ID |
| App.AuthCfgDefaults | cmd/neofs-oauthz/app.go:208-249 | each zero or empty setting becomes its default (`Email`, `Bearer`, `0.0.0.0:8083`, 30 epochs, 200 MiB, 4 days) and every other value is kept |
| App.AuthCfgDerived | cmd/neofs-oauthz/app.go:192-248 | TLS is on exactly when a certificate or key path is given; there is no subject exactly when the user ID is empty; the container ID and redirect URL are the configured ones |
| App.AuthCfgFailures | cmd/neofs-oauthz/app.go:191-270 | a malformed container ID is fatal first, then a malformed non-empty user ID; start-up succeeds exactly when both decode and every OAuth section is a known provider |
| App.AuthCfgServices | cmd/neofs-oauthz/app.go:251-270 | one service per `oauth.<name>` section, built from that section's settings, with the redirect URL followed by "callback" |
| App.Node | cmd/neofs-oauthz/app.go:119-132 | the address as configured; a priority that is not positive becomes 1 and a weight that is not positive becomes 1.0, a positive one is kept |
| App.PeersFrom | cmd/neofs-oauthz/app.go:114-134 | the enumeration can only fail with "node address is empty or malformed" |
| App.PeersFromOk | cmd/neofs-oauthz/app.go:114-132 | one step of a successful enumeration: nothing at an unset index, otherwise the index's node, with an address, before the nodes from the next index |
| App.PeerIndexBound | cmd/neofs-oauthz/app.go:114-118 | only finitely many peer indices are set |
| App.PeersListed | cmd/neofs-oauthz/app.go:114-132 | a successful enumeration lists the node of every index from its starting index on, in order, each set and with an address |
| App.PeersRun | cmd/neofs-oauthz/app.go:114-132 | a successful enumeration is a run of nodes, each listed at its index, ending at an index that is not set |
| App.PeersStopAtUnset | cmd/neofs-oauthz/app.go:115-118 | the enumeration stops at the first index that is not set |
| App.PeersFailure | cmd/neofs-oauthz/app.go:123-125 | a failed enumeration is "node address is empty or malformed" at a set index with an empty address, after set indices that all had addresses |
| App.PoolTimeouts | cmd/neofs-oauthz/app.go:96-112 | each timeout is positive: a positive setting is kept, anything else becomes 30 s, 15 s and 15 s |
| App.PoolParamsOf | cmd/neofs-oauthz/app.go:89-134 | succeeds exactly when the peer enumeration does, failing only with the empty-address message; the signer is the key and the nodes are the enumerated ones |
| App.Startup | cmd/neofs-oauthz/app.go:65-87 | fails only with one of the five fatal messages; on success a key was loaded and it is both the bearer key and the pool signer |
| App.StartupNeedsWalletPath | cmd/neofs-oauthz/app.go:78-81 | without a wallet path start-up stops with "failed to get neofs credentials" before the wallet, the IDs, the services or the peers are looked at |
| App.App.constructor | cmd/neofs-oauthz/app.go:65-76 | the settings, and nothing filled in yet |
| App.App.Init | cmd/neofs-oauthz/app.go:65-87 | the key, then the authentication config, then the pool, stopping at the first fatal message; on success the fields hold the result of `Startup` |
| App.App.InitAuthCfg | cmd/neofs-oauthz/app.go:191-271 | the fatal message or the config of `AuthCfgOf`; the pool is untouched |
| App.App.ReadAuthCfg | cmd/neofs-oauthz/app.go:208-249 | the config `initAuthCfg` assigns before its loop is `BaseAuthCfg`: each zero or empty setting replaced by its default (see `AuthCfgDefaults`), the decoded IDs, and no services |
| App.App.AddOauthServices | cmd/neofs-oauthz/app.go:253-270 | the loop over the sections: adds `OauthServices`' map to the empty one, or gives "failed to init services" |
| App.App.InitPool | cmd/neofs-oauthz/app.go:89-134 | the timeouts defaulted, then the nodes of `CollectPeers`: the fatal message or the parameters of `PoolParamsOf`; the authentication config is untouched |
| App.App.ReadNode | cmd/neofs-oauthz/app.go:119-131 | the node read at `peers.<i>` is `Node`: the address as configured, a weight or priority that is not positive replaced by 1 |
| App.App.CollectPeers | cmd/neofs-oauthz/app.go:114-134 | the loop over `peers.0`, `peers.1`, ...: its result is `PeersFrom` from index 0, the nodes up to the first unset index or the empty-address message |

## Left out

- Cryptography is a parameter (`Bearer.Crypto`):
  - SHA-256;
  - RFC 6979 ECDSA signing (`user.NewAutoIDSignerRFC6979`);
  - `bt.Marshal()` and base64 encoding.
  Only the hex label's shape and the signing outcome are reasoned about.
- OAuth2 and HTTP internals are the `Provider` oracles:
  - `AuthCodeURL` and `Exchange`;
  - the HTTP round trip, body read and JSON decoding of `GetUserEmail`.
  A response without an `email` field decodes to `""` without an error; the model allows this, since the oracle may return any string.
- The storage network client is left out: the pool, `ConnectionArtifacts` and `NetworkInfo`. The epoch query is a `Result` input.
- Pool creation and dialling are left out (`cmd/neofs-oauthz/app.go:136-143`). The model stops at the pool parameters.
- The mutex of the state store is left out. Calls are sequential.
- Authenticator.FormValue: reads only the URL query. Go's `r.FormValue` also reads a POST form body, which is not modelled.
- `crypto/rand` is an input: 8 bytes, or `None` for a failure.
- `Authenticator.BearerToken`: requires a non-zero epoch length from the network, because Go panics on division by zero.
- `getKey`'s wallet file, account choice, password prompt and decryption are folded into one `WalletLoader` parameter. Only the empty-path check is modelled.
- Settings are already-typed values (`App.Value`). The loader is left out, and so are:
  - viper's string-to-number casting;
  - case-insensitive keys;
  - durations written as text such as "30s".
- App.GetFloat64: reads only real-valued settings. A weight given as an integer reads as 0 and so becomes 1.
- Peer weights are `real` rather than `float64`. Rounding is not modelled.
- The error detail attached to fatal log calls is left out, as is the logging itself.
  - The fatal message for an unsupported OAuth section is the fixed "failed to init services".
  - Go's map iteration order decides which section fails first, so the detail is not determined.
- Map iteration order in `initAuthCfg` is a nondeterministic choice in `App.App.AddOauthServices`.
- The index page and its HTML (`Index`) are left out. So are the body and headers `http.Error` writes beyond the status and message.
- `getUserInfo`'s error texts are modelled, but `Callback` only redirects on them, so they never reach a response.
- How storage nodes evaluate an eACL table is not part of this repository. `Eacl.Decide` states the first-match-wins reading the policy comment relies on: a filter on a missing header does not hold, and numeric matching parses decimals.
- `Serve`, `Wait`, metrics, the service wiring and the legacy `neofs-send-authz` binary are not part of this model.
