/** The login and callback handlers (auth/authenticator.go). `/login`
    checks the `service` parameter, draws a random state, records it and
    redirects to the provider; `/callback` consumes the state before anything
    else, exchanges the code for the user's email, asks the network for the
    current epoch, issues a bearer token and hands it out in two cookies. */
module Authenticator {
  import opened Common
  import opened Encoding
  import opened Services
  import opened Bearer

  datatype Cookie = Cookie(name: string, value: string, maxAge: int)

  /** What a handler writes: an `http.Error` (status and message), or an
      `http.Redirect` (status and location) together with the
      `Authorization` header and the cookies set before it. */
  datatype Response =
    | PlainError(status: int, message: string)
    | Redirect(status: int, location: string, authorization: Option<string>, cookies: seq<Cookie>)

  const StatusTemporaryRedirect: int := 307
  const StatusBadRequest: int := 400
  const StatusInternalServerError: int := 500
  const CookieMaxAge: int := 600

  const NoServiceParam: string := "no valid service param"
  const UnsupportedService: string := "unsupported service"
  const StateGenerationFailed: string := "unable generate state"
  const InvalidService: string := "invalid oauth service"
  const ExchangeFailedPrefix: string := "code exchange failed: "

  /** The login failed: back to the landing page, nothing set. */
  const HomeRedirect: Response := Redirect(StatusTemporaryRedirect, "/", None, [])

  /** `auth.Config`, with the fields the handlers read. */
  datatype AuthConfig = AuthConfig(
    bearer: Bearer.Config,
    bearerCookieName: string,
    oauth: map<string, ServiceOauth>,
    tlsEnabled: bool,
    host: string,
    redirectURL: string)

  /** What the storage network reports, or the error of asking it. */
  datatype NetworkInfo = NetworkInfo(currentEpoch: Uint64, msPerEpoch: Int64)

  // ---------------------------------------------------------------------
  // Request parameters
  // ---------------------------------------------------------------------

  /** A decoded query string: its key/value pairs in order. */
  type Query = seq<(string, string)>

  /** `r.URL.Query()[key]`: every value given for `key`, in order. */
  function QueryValues(q: Query, key: string): (vs: seq<string>)
    ensures |vs| <= |q|
    ensures vs != [] <==> exists i :: 0 <= i < |q| && q[i].0 == key
    ensures vs != [] ==> exists i :: 0 <= i < |q| && q[i] == (key, vs[0])
                                     && forall j :: 0 <= j < i ==> q[j].0 != key
  {
    if q == [] then []
    else
      var rest := QueryValues(q[1..], key);
      assert forall i :: 1 <= i < |q| ==> q[i] == q[1..][i - 1];
      if q[0].0 == key then [q[0].1] + rest else rest
  }

  /** `r.FormValue(key)` for a GET request: the first value, or "". */
  function FormValue(q: Query, key: string): (v: string)
    ensures (forall i :: 0 <= i < |q| ==> q[i].0 != key) ==> v == ""
    ensures v != "" ==> exists i :: 0 <= i < |q| && q[i] == (key, v) && forall j :: 0 <= j < i ==> q[j].0 != key
    ensures forall i :: 0 <= i < |q| && q[i].0 == key && (forall j :: 0 <= j < i ==> q[j].0 != key) ==> v == q[i].1
  {
    var vs := QueryValues(q, key);
    if vs == [] then "" else vs[0]
  }

  // ---------------------------------------------------------------------
  // The handlers as functions of the state store
  // ---------------------------------------------------------------------

  /** `LogInWith`: the response and the new state store. */
  function Login(cfg: AuthConfig, store: StateMap, query: Query, random: Option<seq<Byte>>, provider: Provider)
    : (res: (Response, StateMap))
    requires random.Some? ==> |random.value| == 8
    ensures res.0.PlainError? ==> res.1 == store
    ensures res.1 != store ==> res.0.Redirect? && res.0.status == StatusTemporaryRedirect
    ensures res.0.Redirect? ==> res.0.cookies == [] && res.0.authorization.None?
  {
    var keys := QueryValues(query, "service");
    if keys == [] || |keys[0]| < 1 then (PlainError(StatusBadRequest, NoServiceParam), store)
    else if keys[0] !in cfg.oauth then (PlainError(StatusBadRequest, UnsupportedService), store)
    else if random.None? then (PlainError(StatusInternalServerError, StateGenerationFailed), store)
    else
      var state := HexEncode(random.value);
      var url := provider.authCodeURL(cfg.oauth[keys[0]].oauth, state);
      (Redirect(StatusTemporaryRedirect, url, None, []), store[state := keys[0]])
  }

  /** `getUserInfo`: the state is consumed first, whatever happens next. */
  function UserInfo(cfg: AuthConfig, store: StateMap, provider: Provider, state: string, code: string)
    : (res: (Result<string, string>, StateMap))
    ensures res.1 == TakeState(store, state).1
  {
    var (removed, rest) := TakeState(store, state);
    if removed.Err? then (Err(removed.error), rest)
    else if removed.value !in cfg.oauth then (Err(InvalidService), rest)
    else
      var service := cfg.oauth[removed.value];
      match provider.exchange(service.oauth, code)
      case Err(e) => (Err(ExchangeFailedPrefix + e), rest)
      case Ok(token) => (GetUserEmail(service, provider, token), rest)
  }

  /** `getBearerToken`: the epoch query, then `NewBearer`. */
  function BearerToken(cfg: AuthConfig, crypto: Crypto, network: Result<NetworkInfo, string>, email: string)
    : (r: Result<Issued, string>)
    requires network.Ok? ==> network.value.msPerEpoch != 0
    ensures network.Err? ==> r == Err(network.error)
    ensures r.Ok? ==> network.Ok? && |r.value.hashedEmail| == 64 && IsLowerHex(r.value.hashedEmail)
  {
    match network
    case Err(e) => Err(e)
    case Ok(info) => NewBearer(cfg.bearer, crypto, email, info.currentEpoch, info.msPerEpoch)
  }

  /** The response of a successful callback. */
  function Issue(cfg: AuthConfig, issued: Issued): (r: Response)
    ensures r.Redirect? && r.status == StatusTemporaryRedirect && r.location == cfg.redirectURL
    ensures |r.cookies| == 2 && r.cookies[0].value == issued.token && r.cookies[1].value == issued.hashedEmail
    ensures r.authorization == Some("Bearer " + r.cookies[0].value)
    ensures forall i :: 0 <= i < |r.cookies| ==> r.cookies[i].maxAge == CookieMaxAge
  {
    Redirect(StatusTemporaryRedirect, cfg.redirectURL, Some("Bearer " + issued.token),
             [Cookie("Bearer", issued.token, CookieMaxAge), Cookie("X-Attribute-Email", issued.hashedEmail, CookieMaxAge)])
  }

  /** `Callback`: the response and the new state store. */
  function CallbackOutcome(cfg: AuthConfig, crypto: Crypto, store: StateMap, query: Query, provider: Provider,
                           network: Result<NetworkInfo, string>)
    : (res: (Response, StateMap))
    requires network.Ok? ==> network.value.msPerEpoch != 0
    ensures res.1 == TakeState(store, FormValue(query, "state")).1
  {
    var (user, rest) := UserInfo(cfg, store, provider, FormValue(query, "state"), FormValue(query, "code"));
    if user.Err? then (HomeRedirect, rest)
    else match BearerToken(cfg, crypto, network, user.value)
      case Err(e) => (PlainError(StatusInternalServerError, e), rest)
      case Ok(issued) => (Issue(cfg, issued), rest)
  }

  // ---------------------------------------------------------------------
  // The handlers over the shared store
  // ---------------------------------------------------------------------

  /** `Authenticator`: the configuration, the token generator's primitives
      and the services with their state storage. */
  class Authenticator {
    const config: AuthConfig
    const crypto: Crypto
    const services: Services

    ghost predicate Valid() {
      services.services == config.oauth
    }

    /** `New(log, plant, config)`. */
    constructor (config: AuthConfig, crypto: Crypto)
      ensures Valid() && this.config == config && this.crypto == crypto
      ensures fresh(services) && services.states == map[]
    {
      this.config := config;
      this.crypto := crypto;
      services := new Services(config.oauth);
    }

    method LogInWith(query: Query, random: Option<seq<Byte>>, provider: Provider) returns (resp: Response)
      requires Valid()
      requires random.Some? ==> |random.value| == 8
      modifies services
      ensures (resp, services.states) == Login(config, old(services.states), query, random, provider)
    {
      var keys := QueryValues(query, "service");
      if keys == [] || |keys[0]| < 1 {
        return PlainError(StatusBadRequest, NoServiceParam);
      }
      var serviceName := keys[0];
      var service := services.Oauth(serviceName);
      if service.None? {
        return PlainError(StatusBadRequest, UnsupportedService);
      }
      if random.None? {
        return PlainError(StatusInternalServerError, StateGenerationFailed);
      }
      var state := HexEncode(random.value);
      services.AddState(state, serviceName);
      var url := provider.authCodeURL(service.value.oauth, state);
      return Redirect(StatusTemporaryRedirect, url, None, []);
    }

    method Callback(query: Query, provider: Provider, network: Result<NetworkInfo, string>) returns (resp: Response)
      requires Valid()
      requires network.Ok? ==> network.value.msPerEpoch != 0
      modifies services
      ensures (resp, services.states) == CallbackOutcome(config, crypto, old(services.states), query, provider, network)
    {
      var email := GetUserInfo(FormValue(query, "state"), FormValue(query, "code"), provider);
      if email.Err? {
        return HomeRedirect;
      }
      var issued := GetBearerToken(network, email.value);
      if issued.Err? {
        return PlainError(StatusInternalServerError, issued.error);
      }
      var token := issued.value.token;
      var cookies := [Cookie("Bearer", token, CookieMaxAge)];
      cookies := cookies + [Cookie("X-Attribute-Email", issued.value.hashedEmail, CookieMaxAge)];
      resp := Redirect(StatusTemporaryRedirect, config.redirectURL, Some("Bearer " + token), cookies);
      assert resp == Issue(config, issued.value);
    }

    method GetUserInfo(state: string, code: string, provider: Provider) returns (r: Result<string, string>)
      requires Valid()
      modifies services
      ensures (r, services.states) == UserInfo(config, old(services.states), provider, state, code)
    {
      var service := services.RemoveState(state);
      if service.Err? {
        return Err(service.error);
      }
      var oauth := services.Oauth(service.value);
      if oauth.None? {
        return Err(InvalidService);
      }
      var token := provider.exchange(oauth.value.oauth, code);
      if token.Err? {
        return Err(ExchangeFailedPrefix + token.error);
      }
      var email := GetUserEmail(oauth.value, provider, token.value);
      if email.Err? {
        return Err(email.error);
      }
      return Ok(email.value);
    }

    method GetBearerToken(network: Result<NetworkInfo, string>, email: string) returns (r: Result<Issued, string>)
      requires network.Ok? ==> network.value.msPerEpoch != 0
      ensures r == BearerToken(config, crypto, network, email)
      ensures r.Ok? ==> |r.value.hashedEmail| == 64
    {
      if network.Err? {
        return Err(network.error);
      }
      var info := network.value;
      r := NewBearer(config.bearer, crypto, email, info.currentEpoch, info.msPerEpoch);
    }
  }

  // ---------------------------------------------------------------------
  // Properties of a login
  // ---------------------------------------------------------------------

  /** A missing `service` parameter, or an empty first value: 400, no state. */
  lemma LoginWithoutService(cfg: AuthConfig, store: StateMap, query: Query, random: Option<seq<Byte>>, provider: Provider)
    requires random.Some? ==> |random.value| == 8
    requires QueryValues(query, "service") == [] || QueryValues(query, "service")[0] == ""
    ensures Login(cfg, store, query, random, provider) == (PlainError(StatusBadRequest, NoServiceParam), store)
  {
  }

  /** A service that is not configured: 400, no state. */
  lemma LoginUnknownService(cfg: AuthConfig, store: StateMap, query: Query, random: Option<seq<Byte>>, provider: Provider)
    requires random.Some? ==> |random.value| == 8
    requires FormValue(query, "service") != "" && FormValue(query, "service") !in cfg.oauth
    ensures Login(cfg, store, query, random, provider) == (PlainError(StatusBadRequest, UnsupportedService), store)
  {
  }

  /** No randomness: 500, no state. */
  lemma LoginWithoutRandomness(cfg: AuthConfig, store: StateMap, query: Query, provider: Provider)
    requires FormValue(query, "service") in cfg.oauth && FormValue(query, "service") != ""
    ensures Login(cfg, store, query, None, provider)
            == (PlainError(StatusInternalServerError, StateGenerationFailed), store)
  {
  }

  /** A successful login records a 16-character lowercase hex state for the
      requested service and redirects to the provider with it. */
  lemma LoginIssuesState(cfg: AuthConfig, store: StateMap, query: Query, random: seq<Byte>, provider: Provider)
    requires |random| == 8
    requires FormValue(query, "service") in cfg.oauth && FormValue(query, "service") != ""
    ensures var service, state := FormValue(query, "service"), HexEncode(random);
      && |state| == 16 && IsLowerHex(state)
      && Login(cfg, store, query, Some(random), provider)
         == (Redirect(StatusTemporaryRedirect, provider.authCodeURL(cfg.oauth[service].oauth, state), None, []),
             store[state := service])
  {
  }

  /** Different random bytes give different states. */
  lemma StatesFromDistinctBytesDiffer(a: seq<Byte>, b: seq<Byte>)
    requires a != b
    ensures HexEncode(a) != HexEncode(b)
  {
    HexEncodeInjective(a, b);
  }

  // ---------------------------------------------------------------------
  // Properties of a callback
  // ---------------------------------------------------------------------

  /** A known state is burned by the callback whatever the exchange, the
      email fetch, the epoch query or the signing then do. */
  lemma CallbackBurnsState(cfg: AuthConfig, crypto: Crypto, store: StateMap, query: Query, provider: Provider,
                           network: Result<NetworkInfo, string>)
    requires network.Ok? ==> network.value.msPerEpoch != 0
    requires FormValue(query, "state") in store
    ensures CallbackOutcome(cfg, crypto, store, query, provider, network).1 == store - {FormValue(query, "state")}
  {
  }

  /** An unknown (never issued or already used) state: back to "/", no
      cookies, and the store is left alone. */
  lemma CallbackUnknownState(cfg: AuthConfig, crypto: Crypto, store: StateMap, query: Query, provider: Provider,
                             network: Result<NetworkInfo, string>)
    requires network.Ok? ==> network.value.msPerEpoch != 0
    requires FormValue(query, "state") !in store
    ensures CallbackOutcome(cfg, crypto, store, query, provider, network) == (HomeRedirect, store)
  {
  }

  /** Replaying a callback fails, whatever the first one did. */
  lemma CallbackReplayFails(cfg: AuthConfig, crypto: Crypto, store: StateMap, query: Query,
                            p1: Provider, n1: Result<NetworkInfo, string>, p2: Provider, n2: Result<NetworkInfo, string>)
    requires n1.Ok? ==> n1.value.msPerEpoch != 0
    requires n2.Ok? ==> n2.value.msPerEpoch != 0
    ensures var after := CallbackOutcome(cfg, crypto, store, query, p1, n1).1;
      CallbackOutcome(cfg, crypto, after, query, p2, n2) == (HomeRedirect, after)
  {
    var after := CallbackOutcome(cfg, crypto, store, query, p1, n1).1;
    CallbackUnknownState(cfg, crypto, after, query, p2, n2);
  }

  /** A failed code exchange or email fetch is a failed login, not a server
      fault: back to "/", no cookies. */
  lemma CallbackIdentityFailure(cfg: AuthConfig, crypto: Crypto, store: StateMap, query: Query, provider: Provider,
                                network: Result<NetworkInfo, string>)
    requires network.Ok? ==> network.value.msPerEpoch != 0
    requires var state := FormValue(query, "state");
      state in store && store[state] in cfg.oauth
      && var service := cfg.oauth[store[state]];
         var token := provider.exchange(service.oauth, FormValue(query, "code"));
         token.Err? || GetUserEmail(service, provider, token.value).Err?
    ensures CallbackOutcome(cfg, crypto, store, query, provider, network).0 == HomeRedirect
  {
  }

  /** The email of a successful identity exchange. */
  function VerifiedEmail(cfg: AuthConfig, store: StateMap, query: Query, provider: Provider): Option<string> {
    var (user, _) := UserInfo(cfg, store, provider, FormValue(query, "state"), FormValue(query, "code"));
    if user.Ok? then Some(user.value) else None
  }

  /** With a verified email, a failed epoch query or a failed signature is a
      server error: 500 with the error's text, no cookies. */
  lemma CallbackServerError(cfg: AuthConfig, crypto: Crypto, store: StateMap, query: Query, provider: Provider,
                            network: Result<NetworkInfo, string>)
    requires network.Ok? ==> network.value.msPerEpoch != 0
    requires VerifiedEmail(cfg, store, query, provider).Some?
    requires BearerToken(cfg, crypto, network, VerifiedEmail(cfg, store, query, provider).value).Err?
    ensures CallbackOutcome(cfg, crypto, store, query, provider, network).0
            == PlainError(StatusInternalServerError,
                          BearerToken(cfg, crypto, network, VerifiedEmail(cfg, store, query, provider).value).error)
  {
  }

  /** A successful callback sets `Authorization: Bearer <token>`, then the
      `Bearer` cookie with the token and the `X-Attribute-Email` cookie with
      the hashed email, both for 600 seconds, and redirects to RedirectURL. */
  lemma CallbackSuccess(cfg: AuthConfig, crypto: Crypto, store: StateMap, query: Query, provider: Provider,
                        info: NetworkInfo)
    requires info.msPerEpoch != 0
    requires VerifiedEmail(cfg, store, query, provider).Some?
    ensures var email := VerifiedEmail(cfg, store, query, provider).value;
      var issued := NewBearer(cfg.bearer, crypto, email, info.currentEpoch, info.msPerEpoch);
      issued.Ok? ==>
        CallbackOutcome(cfg, crypto, store, query, provider, Ok(info)).0
        == Redirect(StatusTemporaryRedirect, cfg.redirectURL, Some("Bearer " + issued.value.token),
                    [ Cookie("Bearer", issued.value.token, CookieMaxAge),
                      Cookie("X-Attribute-Email", issued.value.hashedEmail, CookieMaxAge) ])
  {
  }

  /** Cookies are only ever set on the redirect to RedirectURL that follows a
      consumed state: exactly two, the second a 64-character hash, both for
      600 seconds. */
  lemma CookiesOnlyOnSuccess(cfg: AuthConfig, crypto: Crypto, store: StateMap, query: Query, provider: Provider,
                             network: Result<NetworkInfo, string>)
    requires network.Ok? ==> network.value.msPerEpoch != 0
    ensures var resp := CallbackOutcome(cfg, crypto, store, query, provider, network).0;
      resp.Redirect? && resp.cookies != [] ==>
        && FormValue(query, "state") in store
        && resp.location == cfg.redirectURL
        && |resp.cookies| == 2
        && resp.cookies[0].name == "Bearer" && resp.cookies[1].name == "X-Attribute-Email"
        && resp.cookies[0].maxAge == CookieMaxAge && resp.cookies[1].maxAge == CookieMaxAge
        && |resp.cookies[1].value| == 64
        && resp.authorization == Some("Bearer " + resp.cookies[0].value)
  {
  }

  /** A login followed by its callback, with a provider and a network that
      cooperate: the token is issued and the state is gone again. */
  lemma LoginThenCallback(cfg: AuthConfig, crypto: Crypto, store: StateMap, service: string, random: seq<Byte>,
                          code: string, provider: Provider, info: NetworkInfo)
    requires |random| == 8 && service != "" && service in cfg.oauth && info.msPerEpoch != 0
    requires var s := cfg.oauth[service];
      && provider.exchange(s.oauth, code).Ok?
      && GetUserEmail(s, provider, provider.exchange(s.oauth, code).value).Ok?
    ensures var state := HexEncode(random);
      var s := cfg.oauth[service];
      var email := GetUserEmail(s, provider, provider.exchange(s.oauth, code).value).value;
      var (_, afterLogin) := Login(cfg, store, [("service", service)], Some(random), provider);
      var (resp, afterCallback) := CallbackOutcome(cfg, crypto, afterLogin, [("state", state), ("code", code)], provider, Ok(info));
      && afterCallback == store - {state}
      && match NewBearer(cfg.bearer, crypto, email, info.currentEpoch, info.msPerEpoch)
         case Ok(issued) => resp == Issue(cfg, issued)
         case Err(e) => resp == PlainError(StatusInternalServerError, e)
  {
    var state := HexEncode(random);
    assert QueryValues([("service", service)], "service") == [service];
    LoginIssuesState(cfg, store, [("service", service)], random, provider);
    CallbackQuery(state, code);
    TakeAfterAdd(store, state, service);
    var s := cfg.oauth[service];
    var afterLogin := store[state := service];
    var email := GetUserEmail(s, provider, provider.exchange(s.oauth, code).value).value;
    assert UserInfo(cfg, afterLogin, provider, state, code) == (Ok(email), store - {state});
  }

  /** The parameters of a callback request. */
  lemma CallbackQuery(state: string, code: string)
    ensures FormValue([("state", state), ("code", code)], "state") == state
    ensures FormValue([("state", state), ("code", code)], "code") == code
  {
    assert QueryValues([("state", state), ("code", code)], "state") == [state];
    assert QueryValues([("state", state), ("code", code)], "code") == [code];
  }

  /** The handlers on one authenticator: a login, its callback, and the same
      callback again, which finds its state gone. */
  method ReplayScenario(a: Authenticator, service: string, random: seq<Byte>, code: string, provider: Provider,
                        network: Result<NetworkInfo, string>) returns (second: Response)
    requires a.Valid() && |random| == 8 && service != "" && service in a.config.oauth
    requires network.Ok? ==> network.value.msPerEpoch != 0
    modifies a.services
    ensures second == HomeRedirect
    ensures a.services.states == old(a.services.states) - {HexEncode(random)}
  {
    var login := a.LogInWith([("service", service)], Some(random), provider);
    assert QueryValues([("service", service)], "service") == [service];
    assert login.Redirect?;
    var state := HexEncode(random);
    var q: Query := [("state", state), ("code", code)];
    assert QueryValues(q, "state") == [state];
    var first := a.Callback(q, provider, network);
    second := a.Callback(q, provider, network);
  }
}
