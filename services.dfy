/** The supported OAuth services and the single-use CSRF state store
    (auth/services.go). A login stores a random `state` (section 4.1.1 of
    RFC 6749) mapped to the provider that was asked; the callback looks it up
    and deletes it in one step, so a state can be consumed at most once
    (section 10.12 of RFC 6749). */
module Services {
  import opened Common

  /** The parts of `oauth2.Config` the application fills in. */
  datatype OauthConfig = OauthConfig(
    clientID: string,
    clientSecret: string,
    scopes: seq<string>,
    authURL: string,
    tokenURL: string,
    redirectURL: string)

  /** Which user-info request builder a service uses (its `fn` field). */
  datatype UserInfoKind = GoogleUserInfo | GithubUserInfo

  /** `ServiceOauth`. */
  datatype ServiceOauth = ServiceOauth(name: string, oauth: OauthConfig, userInfo: UserInfoKind)

  /** An outgoing HTTP request: its method (verb), URL and the headers set on it. */
  datatype Request = Request(verb: string, url: string, header: seq<(string, string)>)

  const InvalidState: string := "invalid oauth state"

  const GoogleUserInfoURL: string := "https://www.googleapis.com/oauth2/v2/userinfo?access_token="
  const GithubUserURL: string := "https://api.github.com/user"

  /** `NewServiceConfig(name, oauth)`: only "google" and "github" are known. */
  function NewServiceConfig(name: string, oauth: OauthConfig): (r: Result<ServiceOauth, string>)
    ensures r.Ok? <==> name == "google" || name == "github"
    ensures r.Ok? ==> r.value.name == name && r.value.oauth == oauth
    ensures r.Ok? ==> (r.value.userInfo == GoogleUserInfo <==> name == "google")
    ensures r.Err? ==> r.error == "unsupported service " + name
  {
    match name
    case "google" => Ok(ServiceOauth(name, oauth, GoogleUserInfo))
    case "github" => Ok(ServiceOauth(name, oauth, GithubUserInfo))
    case _ => Err("unsupported service " + name)
  }

  /** `googleRequest`: the token travels as the `access_token` query parameter. */
  function GoogleRequest(token: string): (r: Request)
    ensures r.verb == "GET" && r.header == []
    ensures |r.url| == |GoogleUserInfoURL| + |token|
    ensures r.url[..|GoogleUserInfoURL|] == GoogleUserInfoURL && r.url[|GoogleUserInfoURL|..] == token
  {
    Request("GET", GoogleUserInfoURL + token, [])
  }

  /** `githubRequest`: fixed URL, token in an `Authorization: token …` header. */
  function GithubRequest(token: string): (r: Request)
    ensures r.verb == "GET" && r.url == GithubUserURL
    ensures |r.header| == 1 && r.header[0].0 == "Authorization" && |r.header[0].1| == 6 + |token|
    ensures r.header[0].1[..6] == "token " && r.header[0].1[6..] == token
  {
    Request("GET", GithubUserURL, [("Authorization", "token " + token)])
  }

  /** The request `GetUserEmail` sends for an access token. */
  function UserInfoRequest(kind: UserInfoKind, token: string): Request {
    match kind
    case GoogleUserInfo => GoogleRequest(token)
    case GithubUserInfo => GithubRequest(token)
  }

  /** The identity provider's side of a login, supplied by the caller and
      free to succeed or fail: `oauth2.Config.AuthCodeURL`, the code exchange
      of `oauth2.Config.Exchange` (an access token or the error's text), and
      the HTTP round trip, body read and JSON decoding of `GetUserEmail` (the
      email or the error's text; a response without an `email` field decodes
      to `""`). */
  datatype Provider = Provider(
    authCodeURL: (OauthConfig, string) -> string,
    exchange: (OauthConfig, string) -> Result<string, string>,
    fetchEmail: Request -> Result<string, string>)

  /** `ServiceOauth.GetUserEmail`: the service's request for the token, sent
      to the provider. */
  function GetUserEmail(c: ServiceOauth, p: Provider, token: string): (r: Result<string, string>)
    ensures c.userInfo == GoogleUserInfo ==> r == p.fetchEmail(GoogleRequest(token))
    ensures c.userInfo == GithubUserInfo ==> r == p.fetchEmail(GithubRequest(token))
  {
    p.fetchEmail(UserInfoRequest(c.userInfo, token))
  }

  /** Each service's request carries the access token, so different tokens
      make different requests. */
  lemma UserInfoRequestInjective(kind: UserInfoKind, t1: string, t2: string)
    requires UserInfoRequest(kind, t1) == UserInfoRequest(kind, t2)
    ensures t1 == t2
  {
    var r1, r2 := UserInfoRequest(kind, t1), UserInfoRequest(kind, t2);
    match kind
    case GoogleUserInfo =>
      assert t1 == r1.url[|GoogleUserInfoURL|..] == r2.url[|GoogleUserInfoURL|..] == t2;
    case GithubUserInfo =>
      assert t1 == r1.header[0].1[6..] == r2.header[0].1[6..] == t2;
  }

  // ---------------------------------------------------------------------
  // The state store as a value
  // ---------------------------------------------------------------------

  type StateMap = map<string, string>

  /** Lookup-and-delete of `RemoveState`: the provider and the store without
      the state, or the "invalid oauth state" error and the store unchanged. */
  function TakeState(store: StateMap, state: string): (res: (Result<string, string>, StateMap))
    ensures state in store ==> res.0 == Ok(store[state])
    ensures state !in store ==> res.0 == Err(InvalidState)
    ensures state !in res.1
    ensures forall s :: s != state ==> (s in res.1 <==> s in store)
    ensures forall s :: s in res.1 ==> res.1[s] == store[s]
  {
    if state in store then (Ok(store[state]), store - {state})
    else (Err(InvalidState), store)
  }

  /** A state just added is consumed with its provider. */
  lemma TakeAfterAdd(store: StateMap, state: string, service: string)
    ensures TakeState(store[state := service], state) == (Ok(service), store - {state})
  {
    assert store[state := service] - {state} == store - {state};
  }

  /** Single use: a state cannot be consumed twice in a row. */
  lemma TakeTwiceFails(store: StateMap, state: string)
    ensures TakeState(TakeState(store, state).1, state).0 == Err(InvalidState)
  {
  }

  /** Consuming an unknown state changes nothing. */
  lemma TakeUnknownKeepsStore(store: StateMap, state: string)
    requires state !in store
    ensures TakeState(store, state).1 == store
  {
  }

  /** Adding overwrites the entry for its state and no other. */
  lemma AddFrame(store: StateMap, state: string, service: string, other: string)
    requires other != state
    ensures state in store[state := service] && store[state := service][state] == service
    ensures other in store[state := service] <==> other in store
    ensures other in store ==> store[state := service][other] == store[other]
  {
  }

  // ---------------------------------------------------------------------
  // The Services object
  // ---------------------------------------------------------------------

  /** `Services`: the configured services, fixed at construction, and the
      state storage, which logins and callbacks update in place. The mutex
      of `stateStorage` is not modelled: calls are sequential here. */
  class Services {
    const services: map<string, ServiceOauth>
    var states: StateMap

    /** `NewServices(configs)`: an empty state storage. */
    constructor (configs: map<string, ServiceOauth>)
      ensures services == configs && states == map[]
    {
      services := configs;
      states := map[];
    }

    /** `AddState`: records `state -> service`, overwriting any entry for
        `state`; no other entry changes. */
    method AddState(state: string, service: string)
      modifies this
      ensures states == old(states)[state := service]
      ensures state in states && states[state] == service
      ensures forall s :: s != state ==> (s in states <==> s in old(states))
      ensures forall s :: s != state && s in states ==> states[s] == old(states)[s]
    {
      states := states[state := service];
    }

    /** `RemoveState`: atomic lookup-and-delete. */
    method RemoveState(state: string) returns (r: Result<string, string>)
      modifies this
      ensures (r, states) == TakeState(old(states), state)
      ensures r.Ok? <==> state in old(states)
      ensures r.Ok? ==> r.value == old(states)[state] && states == old(states) - {state}
      ensures r.Err? ==> r.error == InvalidState && states == old(states)
    {
      if state !in states {
        return Err(InvalidState);
      }
      var service := states[state];
      states := states - {state};
      return Ok(service);
    }

    /** `Oauth(service)`: the configured service of that name, if any. */
    function Oauth(service: string): (r: Option<ServiceOauth>)
      ensures r.Some? <==> service in services
      ensures r.Some? ==> r.value == services[service]
    {
      if service in services then Some(services[service]) else None
    }
  }

  /** Sequence of calls on one store: add, consume, consume again. The
      first consumption returns the provider, the second fails, and no other
      state is touched. */
  method SingleUseScenario(s: Services, state: string, service: string) returns (first: Result<string, string>, second: Result<string, string>)
    modifies s
    ensures first == Ok(service) && second == Err(InvalidState)
    ensures s.states == old(s.states) - {state}
  {
    s.AddState(state, service);
    first := s.RemoveState(state);
    second := s.RemoveState(state);
  }
}
