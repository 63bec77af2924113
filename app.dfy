/** Start-up of the oauthz service (cmd/neofs-oauthz/app.go): the wallet key,
    then the authenticator's configuration with its zero-value defaults and
    one OAuth service per configured section, then the connection pool's
    parameters with its timeouts and the peers listed under `peers.0`,
    `peers.1`, ... A fatal log ends the process; here it is the message the
    start-up stops with. */
module App {
  import opened Common
  import opened Encoding
  import opened Services
  import opened Bearer
  import opened Authenticator

  // ---------------------------------------------------------------------
  // Settings
  // ---------------------------------------------------------------------

  /** A setting as the loader left it: already typed. */
  datatype Value =
    | Str(s: string)
    | Num(n: int)
    | Real(r: real)
    | Dur(d: Duration)
    | Strings(ss: seq<string>)

  /** The loaded configuration by flat, dot-separated key (`neofs.cid`,
      `peers.0.address`, ...). */
  type Settings = map<string, Value>

  /** `GetString`: "" when the key is missing or holds no string. */
  function GetString(cfg: Settings, key: string): string {
    if key in cfg && cfg[key].Str? then cfg[key].s else ""
  }

  /** `GetInt`: Go's `int`, 0 when missing or out of range. */
  function GetInt(cfg: Settings, key: string): Int64 {
    if key in cfg && cfg[key].Num? && -Two63 <= cfg[key].n < Two63 then cfg[key].n else 0
  }

  /** `GetUint64`: 0 when missing, negative or out of range. */
  function GetUint64(cfg: Settings, key: string): Uint64 {
    if key in cfg && cfg[key].Num? && 0 <= cfg[key].n < Two64 then cfg[key].n else 0
  }

  /** `GetFloat64`, as a real number. */
  function GetFloat64(cfg: Settings, key: string): real {
    if key in cfg && cfg[key].Real? then cfg[key].r else 0.0
  }

  /** `GetDuration`: a bare number counts as nanoseconds. */
  function GetDuration(cfg: Settings, key: string): Duration {
    if key in cfg && cfg[key].Dur? then cfg[key].d
    else if key in cfg && cfg[key].Num? && -Two63 <= cfg[key].n < Two63 then cfg[key].n
    else 0
  }

  function GetStringSlice(cfg: Settings, key: string): seq<string> {
    if key in cfg && cfg[key].Strings? then cfg[key].ss else []
  }

  /** `k` is a key inside the section `key`. */
  predicate InSection(key: string, k: string) {
    key + "." <= k
  }

  /** `IsSet`: the key holds a value, or a section of that name exists. */
  predicate IsSet(cfg: Settings, key: string) {
    key in cfg || exists k {:trigger InSection(key, k)} :: k in cfg && InSection(key, k)
  }

  /** The text before the first dot. */
  function FirstSegment(s: string): (r: string)
    ensures r <= s && '.' !in r
    ensures |r| < |s| ==> s[|r|] == '.'
  {
    if s == [] || s[0] == '.' then []
    else [s[0]] + FirstSegment(s[1..])
  }

  /** The names of the sub-sections of `section` (the keys of `GetStringMap`). */
  function SectionNames(cfg: Settings, section: string): set<string> {
    set k | k in cfg.Keys && section + "." <= k :: FirstSegment(k[|section| + 1..])
  }

  // ---------------------------------------------------------------------
  // Keys, defaults and fatal messages
  // ---------------------------------------------------------------------

  const ListenAddressKey: string := "listen_address"
  const TLSCertificateKey: string := "tls_certificate"
  const TLSKeyKey: string := "tls_key"
  const ContainerIDKey: string := "neofs.cid"
  const EmailAttrKey: string := "neofs.bearer_email_attribute"
  const UserIDKey: string := "neofs.bearer_user_id"
  const BearerLifetimeKey: string := "neofs.bearer_lifetime"
  const MaxObjectSizeKey: string := "neofs.max_object_size"
  const MaxObjectLifetimeKey: string := "neofs.max_object_lifetime"
  const WalletPathKey: string := "neofs.wallet.path"
  const PeersKey: string := "peers"
  const ConnectTimeoutKey: string := "connect_timeout"
  const RequestTimeoutKey: string := "request_timeout"
  const RebalanceTimerKey: string := "rebalance_timer"
  const BearerCookieNameKey: string := "bearer_cookie_name"
  const OauthKey: string := "oauth"
  const RedirectURLKey: string := "redirect.url"

  const Second: int := 1_000_000_000
  const Hour: int := 3600 * Second

  const DefaultEmailAttr: string := "Email"
  const DefaultBearerCookieName: string := "Bearer"
  const DefaultBearerLifetime: Uint64 := 30
  const DefaultMaxObjectSize: Uint64 := 200 * 0x10_0000
  const DefaultMaxObjectLifetime: Duration := 4 * 24 * Hour
  const DefaultConnectTimeout: Duration := 30 * Second
  const DefaultRebalanceTimer: Duration := 15 * Second
  const DefaultRequestTimeout: Duration := 15 * Second
  const DefaultListenAddress: string := "0.0.0.0:8083"

  const WalletPathEmpty: string := "wallet path can't be empty"
  const CredentialsFailed: string := "failed to get neofs credentials"
  const MalformedContainerID: string := "container id is empty or malformed"
  const MalformedUserID: string := "user id is malformed"
  const ServicesFailed: string := "failed to init services"
  const MalformedNodeAddress: string := "node address is empty or malformed"

  // ---------------------------------------------------------------------
  // getKey
  // ---------------------------------------------------------------------

  /** Opening the wallet file, choosing the account, reading the password
      and decrypting the key, supplied by the caller: a key or an error. */
  type WalletLoader = string -> Result<PrivateKey, string>

  /** `getKey`: an empty wallet path fails before the loader is consulted. */
  function GetKey(cfg: Settings, loadWallet: WalletLoader): (r: Result<PrivateKey, string>)
    ensures GetString(cfg, WalletPathKey) == "" ==> r == Err(WalletPathEmpty)
    ensures GetString(cfg, WalletPathKey) != "" ==> r == loadWallet(GetString(cfg, WalletPathKey))
  {
    var path := GetString(cfg, WalletPathKey);
    if |path| == 0 then Err(WalletPathEmpty) else loadWallet(path)
  }

  /** With no wallet path the outcome is the same whatever the wallet files
      hold: the error, and no file is read. */
  lemma GetKeyNeedsPath(cfg: Settings, w1: WalletLoader, w2: WalletLoader)
    ensures GetString(cfg, WalletPathKey) == "" ==> GetKey(cfg, w1) == GetKey(cfg, w2) == Err(WalletPathEmpty)
    ensures GetString(cfg, WalletPathKey) != "" ==> GetKey(cfg, w1) == w1(GetString(cfg, WalletPathKey))
  {
  }

  // ---------------------------------------------------------------------
  // initAuthCfg
  // ---------------------------------------------------------------------

  /** Base58 decoding of a container ID and of a user ID, supplied by the
      caller: the decoded value, or `None` when the text is malformed. */
  datatype Codecs = Codecs(containerID: string -> Option<Eacl.ContainerId>, userID: string -> Option<UserId>)

  function StringOr(s: string, default: string): string {
    if |s| == 0 then default else s
  }

  function NonZeroOr(x: Uint64, default: Uint64): Uint64 {
    if x == 0 then default else x
  }

  /** The `bearer.Config` part: zero values replaced by their defaults. */
  function BearerConfigOf(cfg: Settings, key: PrivateKey, cid: Eacl.ContainerId, userID: Option<UserId>): Bearer.Config {
    var lifetime := GetDuration(cfg, MaxObjectLifetimeKey);
    Bearer.Config(
      StringOr(GetString(cfg, EmailAttrKey), DefaultEmailAttr),
      key,
      userID,
      cid,
      NonZeroOr(GetUint64(cfg, BearerLifetimeKey), DefaultBearerLifetime),
      NonZeroOr(GetUint64(cfg, MaxObjectSizeKey), DefaultMaxObjectSize),
      if lifetime == 0 then DefaultMaxObjectLifetime else lifetime)
  }

  function TLSEnabled(cfg: Settings): bool {
    GetString(cfg, TLSCertificateKey) != "" || GetString(cfg, TLSKeyKey) != ""
  }

  /** `fmt.Sprintf("%scallback", redirectURL)`. */
  function CallbackURL(redirectURL: string): string {
    redirectURL + "callback"
  }

  /** The `oauth2.Config` of section `oauth.<name>`. */
  function OauthConfigOf(cfg: Settings, name: string, callbackURL: string): OauthConfig {
    var section := OauthKey + "." + name + ".";
    OauthConfig(
      GetString(cfg, section + "id"),
      GetString(cfg, section + "secret"),
      GetStringSlice(cfg, section + "scopes"),
      GetString(cfg, section + "endpoint.auth"),
      GetString(cfg, section + "endpoint.token"),
      callbackURL)
  }

  predicate Supported(name: string) {
    name == "google" || name == "github"
  }

  /** The services of the sections `names`, each built by `NewServiceConfig`. */
  function ServiceMap(cfg: Settings, names: set<string>, callbackURL: string): map<string, ServiceOauth>
    requires forall n :: n in names ==> Supported(n)
  {
    map n | n in names :: ServiceFor(cfg, n, callbackURL)
  }

  /** The service of section `oauth.<name>`. */
  function ServiceFor(cfg: Settings, name: string, callbackURL: string): ServiceOauth
    requires Supported(name)
  {
    NewServiceConfig(name, OauthConfigOf(cfg, name, callbackURL)).value
  }

  /** The map has one entry per name, each built by `NewServiceConfig` from
      that section's settings. */
  lemma ServiceMapEntries(cfg: Settings, names: set<string>, callbackURL: string)
    requires forall n :: n in names ==> Supported(n)
    ensures var m := ServiceMap(cfg, names, callbackURL);
      && m.Keys == names
      && forall n :: n in m ==>
           && NewServiceConfig(n, OauthConfigOf(cfg, n, callbackURL)) == Ok(m[n])
           && m[n].name == n
           && m[n].oauth.redirectURL == callbackURL
           && m[n].oauth.clientID == GetString(cfg, "oauth." + n + ".id")
  {
    var m := ServiceMap(cfg, names, callbackURL);
    forall n | n in m
      ensures m[n].oauth.clientID == GetString(cfg, "oauth." + n + ".id")
    {
      assert OauthKey + "." + n + "." + "id" == "oauth." + n + ".id";
    }
  }

  /** Adding the service of one more section. */
  lemma ServiceMapAdd(cfg: Settings, names: set<string>, name: string, callbackURL: string)
    requires forall n :: n in names ==> Supported(n)
    requires Supported(name)
    ensures ServiceMap(cfg, names, callbackURL)[name := ServiceFor(cfg, name, callbackURL)]
            == ServiceMap(cfg, names + {name}, callbackURL)
  {
  }

  /** The configured OAuth services, or the fatal message when a section is
      not a known provider. */
  function OauthServices(cfg: Settings, callbackURL: string): Result<map<string, ServiceOauth>, string> {
    var names := SectionNames(cfg, OauthKey);
    if forall n :: n in names ==> Supported(n) then Ok(ServiceMap(cfg, names, callbackURL))
    else Err(ServicesFailed)
  }

  /** `initAuthCfg`: the authenticator's configuration, or the fatal message. */
  function AuthCfgOf(cfg: Settings, key: PrivateKey, codecs: Codecs): (r: Result<AuthConfig, string>)
    ensures r.Err? ==> r.error == MalformedContainerID || r.error == MalformedUserID || r.error == ServicesFailed
    ensures r.Ok? ==> r.value.bearer.key == key
  {
    match codecs.containerID(GetString(cfg, ContainerIDKey))
    case None => Err(MalformedContainerID)
    case Some(cid) =>
      var user := GetString(cfg, UserIDKey);
      if user != "" && codecs.userID(user).None? then Err(MalformedUserID)
      else
        var userID := if user == "" then None else codecs.userID(user);
        var redirectURL := GetString(cfg, RedirectURLKey);
        match OauthServices(cfg, CallbackURL(redirectURL))
        case Err(e) => Err(e)
        case Ok(services) => Ok(BaseAuthCfg(cfg, key, cid, userID).(oauth := services))
  }

  /** The configuration before the services are added. */
  function BaseAuthCfg(cfg: Settings, key: PrivateKey, cid: Eacl.ContainerId, userID: Option<UserId>): AuthConfig {
    AuthConfig(
      BearerConfigOf(cfg, key, cid, userID),
      StringOr(GetString(cfg, BearerCookieNameKey), DefaultBearerCookieName),
      map[],
      TLSEnabled(cfg),
      StringOr(GetString(cfg, ListenAddressKey), DefaultListenAddress),
      GetString(cfg, RedirectURLKey))
  }

  /** A successful configuration is the base one, with the decoded IDs, and
      the services of the `oauth` sections. */
  lemma AuthCfgParts(cfg: Settings, key: PrivateKey, codecs: Codecs)
    requires AuthCfgOf(cfg, key, codecs).Ok?
    ensures codecs.containerID(GetString(cfg, ContainerIDKey)).Some?
    ensures OauthServices(cfg, CallbackURL(GetString(cfg, RedirectURLKey))).Ok?
    ensures var c := AuthCfgOf(cfg, key, codecs).value;
      var user := GetString(cfg, UserIDKey);
      var base := BaseAuthCfg(cfg, key, codecs.containerID(GetString(cfg, ContainerIDKey)).value,
                              if user == "" then None else codecs.userID(user));
      && c.bearer == base.bearer && c.bearerCookieName == base.bearerCookieName
      && c.tlsEnabled == base.tlsEnabled && c.host == base.host && c.redirectURL == base.redirectURL
      && c.oauth == OauthServices(cfg, CallbackURL(GetString(cfg, RedirectURLKey))).value
  {
  }

  /** The defaults of the base configuration. */
  lemma BaseDefaults(cfg: Settings, key: PrivateKey, cid: Eacl.ContainerId, userID: Option<UserId>)
    ensures var c := BaseAuthCfg(cfg, key, cid, userID);
      var emailAttr, cookie, listen := GetString(cfg, EmailAttrKey), GetString(cfg, BearerCookieNameKey), GetString(cfg, ListenAddressKey);
      var lifetime, size := GetUint64(cfg, BearerLifetimeKey), GetUint64(cfg, MaxObjectSizeKey);
      var objectLifetime := GetDuration(cfg, MaxObjectLifetimeKey);
      && c.bearer.key == key
      && (emailAttr == "" ==> c.bearer.emailAttr == "Email") && (emailAttr != "" ==> c.bearer.emailAttr == emailAttr)
      && (cookie == "" ==> c.bearerCookieName == "Bearer") && (cookie != "" ==> c.bearerCookieName == cookie)
      && (listen == "" ==> c.host == "0.0.0.0:8083") && (listen != "" ==> c.host == listen)
      && (lifetime == 0 ==> c.bearer.lifeTime == 30) && (lifetime != 0 ==> c.bearer.lifeTime == lifetime)
      && (size == 0 ==> c.bearer.maxObjectSize == 209715200) && (size != 0 ==> c.bearer.maxObjectSize == size)
      && (objectLifetime == 0 ==> c.bearer.objectMaxLifetime == 345600 * Second)
      && (objectLifetime != 0 ==> c.bearer.objectMaxLifetime == objectLifetime)
      && c.bearer.emailAttr != "" && c.bearerCookieName != "" && c.host != ""
      && c.bearer.lifeTime != 0 && c.bearer.maxObjectSize != 0 && c.bearer.objectMaxLifetime != 0
  {
  }

  /** Each zero or empty setting is replaced by its default and every other
      value is kept as configured. */
  lemma AuthCfgDefaults(cfg: Settings, key: PrivateKey, codecs: Codecs)
    requires AuthCfgOf(cfg, key, codecs).Ok?
    ensures var c := AuthCfgOf(cfg, key, codecs).value;
      var emailAttr, cookie, listen := GetString(cfg, EmailAttrKey), GetString(cfg, BearerCookieNameKey), GetString(cfg, ListenAddressKey);
      var lifetime, size := GetUint64(cfg, BearerLifetimeKey), GetUint64(cfg, MaxObjectSizeKey);
      var objectLifetime := GetDuration(cfg, MaxObjectLifetimeKey);
      && c.bearer.key == key
      && (emailAttr == "" ==> c.bearer.emailAttr == "Email") && (emailAttr != "" ==> c.bearer.emailAttr == emailAttr)
      && (cookie == "" ==> c.bearerCookieName == "Bearer") && (cookie != "" ==> c.bearerCookieName == cookie)
      && (listen == "" ==> c.host == "0.0.0.0:8083") && (listen != "" ==> c.host == listen)
      && (lifetime == 0 ==> c.bearer.lifeTime == 30) && (lifetime != 0 ==> c.bearer.lifeTime == lifetime)
      && (size == 0 ==> c.bearer.maxObjectSize == 209715200) && (size != 0 ==> c.bearer.maxObjectSize == size)
      && (objectLifetime == 0 ==> c.bearer.objectMaxLifetime == 345600 * Second)
      && (objectLifetime != 0 ==> c.bearer.objectMaxLifetime == objectLifetime)
      && c.bearer.emailAttr != "" && c.bearerCookieName != "" && c.host != ""
      && c.bearer.lifeTime != 0 && c.bearer.maxObjectSize != 0 && c.bearer.objectMaxLifetime != 0
  {
    AuthCfgParts(cfg, key, codecs);
    var user := GetString(cfg, UserIDKey);
    BaseDefaults(cfg, key, codecs.containerID(GetString(cfg, ContainerIDKey)).value,
                 if user == "" then None else codecs.userID(user));
  }

  /** The derived settings: TLS is on exactly when a certificate or a key
      path is given; the subject is absent exactly when no user ID is
      configured, and otherwise is the decoded one. */
  lemma AuthCfgDerived(cfg: Settings, key: PrivateKey, codecs: Codecs)
    requires AuthCfgOf(cfg, key, codecs).Ok?
    ensures var c := AuthCfgOf(cfg, key, codecs).value;
      var user := GetString(cfg, UserIDKey);
      && (c.tlsEnabled <==> GetString(cfg, TLSCertificateKey) != "" || GetString(cfg, TLSKeyKey) != "")
      && (c.bearer.userID.None? <==> user == "")
      && (user != "" ==> c.bearer.userID == codecs.userID(user))
      && c.bearer.containerID == codecs.containerID(GetString(cfg, ContainerIDKey)).value
      && c.redirectURL == GetString(cfg, RedirectURLKey)
  {
  }

  /** Start-up succeeds exactly when the container ID decodes, the user ID is
      empty or decodes, and every OAuth section names a known provider; the
      container ID is checked first. */
  lemma AuthCfgFailures(cfg: Settings, key: PrivateKey, codecs: Codecs)
    ensures codecs.containerID(GetString(cfg, ContainerIDKey)).None? ==> AuthCfgOf(cfg, key, codecs) == Err(MalformedContainerID)
    ensures (codecs.containerID(GetString(cfg, ContainerIDKey)).Some? && GetString(cfg, UserIDKey) != ""
             && codecs.userID(GetString(cfg, UserIDKey)).None?) ==> AuthCfgOf(cfg, key, codecs) == Err(MalformedUserID)
    ensures AuthCfgOf(cfg, key, codecs).Ok? <==>
              && codecs.containerID(GetString(cfg, ContainerIDKey)).Some?
              && (GetString(cfg, UserIDKey) == "" || codecs.userID(GetString(cfg, UserIDKey)).Some?)
              && forall n :: n in SectionNames(cfg, OauthKey) ==> Supported(n)
  {
  }

  /** One service per `oauth.<name>` section, built by `NewServiceConfig` from
      that section's settings, and each sending its users back to the
      configured redirect URL followed by "callback". */
  lemma AuthCfgServices(cfg: Settings, key: PrivateKey, codecs: Codecs)
    requires AuthCfgOf(cfg, key, codecs).Ok?
    ensures var c := AuthCfgOf(cfg, key, codecs).value;
      var redirectURL := GetString(cfg, RedirectURLKey);
      && c.oauth.Keys == SectionNames(cfg, OauthKey)
      && forall n :: n in c.oauth ==>
           && NewServiceConfig(n, OauthConfigOf(cfg, n, CallbackURL(redirectURL))) == Ok(c.oauth[n])
           && c.oauth[n].name == n
           && c.oauth[n].oauth.redirectURL == redirectURL + "callback"
           && c.oauth[n].oauth.clientID == GetString(cfg, "oauth." + n + ".id")
  {
    AuthCfgParts(cfg, key, codecs);
    var names := SectionNames(cfg, OauthKey);
    ServiceMapEntries(cfg, names, CallbackURL(GetString(cfg, RedirectURLKey)));
  }


  // ---------------------------------------------------------------------
  // initPool
  // ---------------------------------------------------------------------

  /** `pool.NewNodeParam(priority, address, weight)`. */
  datatype NodeParam = NodeParam(priority: Int64, address: string, weight: real)

  /** The parameters the pool is created with. */
  datatype PoolParams = PoolParams(
    signer: PrivateKey,
    nodeDialTimeout: Duration,
    healthcheckTimeout: Duration,
    rebalanceInterval: Duration,
    nodes: seq<NodeParam>)

  /** A duration that must be positive: the default replaces anything else. */
  function PositiveOr(d: Duration, default: Duration): Duration {
    if d <= 0 then default else d
  }

  /** `peers.<i>`. */
  function PeerKey(i: nat): string {
    PeersKey + "." + FormatUint(i)
  }

  /** `peers.<i>.<field>`. */
  function NodeKey(i: nat, field: string): string {
    PeerKey(i) + "." + field
  }

  /** The node of `peers.<i>`: priority and weight that are not positive
      become 1, the address is taken as it is. */
  function Node(cfg: Settings, i: nat): (node: NodeParam)
    ensures node.address == GetString(cfg, NodeKey(i, "address"))
    ensures node.priority >= 1 && node.weight > 0.0
    ensures GetInt(cfg, NodeKey(i, "priority")) <= 0 ==> node.priority == 1
    ensures GetFloat64(cfg, NodeKey(i, "weight")) <= 0.0 ==> node.weight == 1.0
    ensures GetInt(cfg, NodeKey(i, "priority")) > 0 ==> node.priority == GetInt(cfg, NodeKey(i, "priority"))
    ensures GetFloat64(cfg, NodeKey(i, "weight")) > 0.0 ==> node.weight == GetFloat64(cfg, NodeKey(i, "weight"))
  {
    var weight := GetFloat64(cfg, NodeKey(i, "weight"));
    var priority := GetInt(cfg, NodeKey(i, "priority"));
    NodeParam(if priority <= 0 then 1 else priority, GetString(cfg, NodeKey(i, "address")), if weight <= 0.0 then 1.0 else weight)
  }

  /** The length of the longest key. */
  ghost function MaxKeyLength(keys: set<string>): (m: nat)
    ensures forall k :: k in keys ==> |k| <= m
    decreases keys
  {
    if keys == {} then 0
    else
      var k :| k in keys;
      var m := MaxKeyLength(keys - {k});
      if |k| > m then |k| else m
  }

  /** Only finitely many peer indices are set: each needs a key at least as
      long as its own decimal rendering. */
  lemma PeerIndexBound(cfg: Settings, i: nat)
    requires IsSet(cfg, PeerKey(i))
    ensures i < Pow10(MaxKeyLength(cfg.Keys))
  {
    var k :| k in cfg && (k == PeerKey(i) || InSection(PeerKey(i), k));
    if k != PeerKey(i) {
      assert InSection(PeerKey(i), k);
    }
    assert |FormatUint(i)| <= |PeerKey(i)| <= |k| <= MaxKeyLength(cfg.Keys);
    FormatUintLength(i, MaxKeyLength(cfg.Keys));
  }

  /** The nodes `peers.<i>`, `peers.<i+1>`, ... up to the first index that is
      not set, or the fatal message for an empty address. */
  function PeersFrom(cfg: Settings, i: nat): (r: Result<seq<NodeParam>, string>)
    ensures r.Err? ==> r.error == MalformedNodeAddress
    decreases Pow10(MaxKeyLength(cfg.Keys)) - i
  {
    if !IsSet(cfg, PeerKey(i)) then Ok([])
    else
      PeerIndexBound(cfg, i);
      var node := Node(cfg, i);
      if node.address == "" then Err(MalformedNodeAddress)
      else Prepend([node], PeersFrom(cfg, i + 1))
  }

  function Prepend(nodes: seq<NodeParam>, r: Result<seq<NodeParam>, string>): Result<seq<NodeParam>, string> {
    match r
    case Ok(rest) => Ok(nodes + rest)
    case Err(e) => Err(e)
  }

  /** One step of the enumeration at a set index. */
  lemma PeersFromStep(cfg: Settings, i: nat)
    requires IsSet(cfg, PeerKey(i))
    ensures PeersFrom(cfg, i) == if Node(cfg, i).address == "" then Err(MalformedNodeAddress)
                                 else Prepend([Node(cfg, i)], PeersFrom(cfg, i + 1))
  {
  }

  /** A successful enumeration: empty from an index that is not set,
      otherwise that index's node followed by the nodes from the next one. */
  lemma PeersFromOk(cfg: Settings, i: nat, ns: seq<NodeParam>)
    requires PeersFrom(cfg, i) == Ok(ns)
    ensures !IsSet(cfg, PeerKey(i)) ==> ns == []
    ensures IsSet(cfg, PeerKey(i)) ==>
              && i < Pow10(MaxKeyLength(cfg.Keys))
              && Node(cfg, i).address != ""
              && PeersFrom(cfg, i + 1).Ok?
              && ns == [Node(cfg, i)] + PeersFrom(cfg, i + 1).value
  {
    if IsSet(cfg, PeerKey(i)) {
      PeerIndexBound(cfg, i);
      PeersFromStep(cfg, i);
    }
  }

  /** Prepending in two steps. */
  lemma PrependTwice(nodes: seq<NodeParam>, node: NodeParam, r: Result<seq<NodeParam>, string>)
    ensures Prepend(nodes, Prepend([node], r)) == Prepend(nodes + [node], r)
  {
    if r.Ok? {
      assert nodes + ([node] + r.value) == (nodes + [node]) + r.value;
    }
  }

  lemma PrependNothing(r: Result<seq<NodeParam>, string>)
    ensures Prepend([], r) == r
  {
    if r.Ok? {
      assert [] + r.value == r.value;
    }
  }

  /** The loop of `initPool` at a set index with an address: the node is
      appended and the enumeration goes on from the next index. */
  lemma PeersExtend(cfg: Settings, nodes: seq<NodeParam>, i: nat, node: NodeParam)
    requires IsSet(cfg, PeerKey(i)) && node == Node(cfg, i) && node.address != ""
    requires PeersFrom(cfg, 0) == Prepend(nodes, PeersFrom(cfg, i))
    ensures PeersFrom(cfg, 0) == Prepend(nodes + [node], PeersFrom(cfg, i + 1))
  {
    PeersFromStep(cfg, i);
    PrependTwice(nodes, node, PeersFrom(cfg, i + 1));
  }

  /** The loop of `initPool` at a set index without an address: fatal. */
  lemma PeersBlocked(cfg: Settings, nodes: seq<NodeParam>, i: nat)
    requires IsSet(cfg, PeerKey(i)) && Node(cfg, i).address == ""
    ensures Prepend(nodes, PeersFrom(cfg, i)) == Err(MalformedNodeAddress)
  {
    PeersFromStep(cfg, i);
  }

  /** `peers.<n>` is set and gives `node`, with an address. */
  predicate Listed(cfg: Settings, n: nat, node: NodeParam) {
    IsSet(cfg, PeerKey(n)) && node == Node(cfg, n) && node.address != ""
  }

  /** `p` holds of each of `xs` with its index, counting from `n`, and `q`
      of the index just past the last one. */
  predicate RunFrom<T>(p: (nat, T) -> bool, q: nat -> bool, n: nat, xs: seq<T>)
    decreases |xs|
  {
    if xs == [] then q(n) else p(n, xs[0]) && RunFrom(p, q, n + 1, xs[1..])
  }

  lemma RunFromCons<T>(p: (nat, T) -> bool, q: nat -> bool, n: nat, x: T, rest: seq<T>)
    requires p(n, x) && RunFrom(p, q, n + 1, rest)
    ensures RunFrom(p, q, n, [x] + rest)
  {
    assert ([x] + rest)[1..] == rest;
  }

  /** The `j`-th element of a run, with its index. */
  lemma {:induction false} RunFromAt<T>(p: (nat, T) -> bool, q: nat -> bool, n: nat, xs: seq<T>, j: nat)
    requires RunFrom(p, q, n, xs) && j < |xs|
    ensures p(n + j, xs[j])
    decreases j
  {
    if j > 0 {
      RunFromAt(p, q, n + 1, xs[1..], j - 1);
      assert n + 1 + (j - 1) == n + j && xs[1..][j - 1] == xs[j];
    }
  }

  /** The index just past a run. */
  lemma {:induction false} RunFromEnd<T>(p: (nat, T) -> bool, q: nat -> bool, n: nat, xs: seq<T>)
    requires RunFrom(p, q, n, xs)
    ensures q(n + |xs|)
    decreases |xs|
  {
    if xs != [] {
      RunFromEnd(p, q, n + 1, xs[1..]);
      assert n + 1 + |xs[1..]| == n + |xs|;
    }
  }

  /** A successful enumeration is a run of listed nodes ending at an index
      that is not set. */
  lemma {:induction false} PeersRun(cfg: Settings, i: nat, ns: seq<NodeParam>)
    requires PeersFrom(cfg, i) == Ok(ns)
    ensures RunFrom((n: nat, node: NodeParam) => Listed(cfg, n, node), (n: nat) => !IsSet(cfg, PeerKey(n)), i, ns)
    decreases Pow10(MaxKeyLength(cfg.Keys)) - i
  {
    PeersFromOk(cfg, i, ns);
    if IsSet(cfg, PeerKey(i)) {
      var rest := PeersFrom(cfg, i + 1).value;
      PeersRun(cfg, i + 1, rest);
      RunFromCons((n: nat, node: NodeParam) => Listed(cfg, n, node), (n: nat) => !IsSet(cfg, PeerKey(n)), i, Node(cfg, i), rest);
    }
  }

  /** One node of a run of listed nodes. */
  lemma ListedAt(cfg: Settings, n: nat, ns: seq<NodeParam>, j: nat)
    requires RunFrom((k: nat, node: NodeParam) => Listed(cfg, k, node), (k: nat) => !IsSet(cfg, PeerKey(k)), n, ns)
    requires j < |ns|
    ensures Listed(cfg, n + j, ns[j])
  {
    RunFromAt((k: nat, node: NodeParam) => Listed(cfg, k, node), (k: nat) => !IsSet(cfg, PeerKey(k)), n, ns, j);
  }

  /** The end test of a run of listed nodes, applied. */
  lemma UnsetAt(cfg: Settings, m: nat)
    requires ((k: nat) => !IsSet(cfg, PeerKey(k)))(m)
    ensures !IsSet(cfg, PeerKey(m))
  {
  }

  /** The end of a run of nodes: an index that is not set. */
  lemma UnsetAfter(cfg: Settings, p: (nat, NodeParam) -> bool, n: nat, ns: seq<NodeParam>)
    requires RunFrom(p, (k: nat) => !IsSet(cfg, PeerKey(k)), n, ns)
    ensures !IsSet(cfg, PeerKey(n + |ns|))
  {
    RunFromEnd(p, (k: nat) => !IsSet(cfg, PeerKey(k)), n, ns);
    UnsetAt(cfg, n + |ns|);
  }

  /** A successful enumeration lists, in index order, the node of every index
      from `i` on, each set and with an address ... */
  lemma PeersListed(cfg: Settings, i: nat, ns: seq<NodeParam>)
    requires PeersFrom(cfg, i) == Ok(ns)
    ensures forall j :: 0 <= j < |ns| ==> Listed(cfg, i + j, ns[j])
  {
    PeersRun(cfg, i, ns);
    forall j | 0 <= j < |ns|
      ensures Listed(cfg, i + j, ns[j])
    {
      ListedAt(cfg, i, ns, j);
    }
  }

  /** ... and stops at the first index that is not set. */
  lemma PeersStopAtUnset(cfg: Settings, i: nat, ns: seq<NodeParam>)
    requires PeersFrom(cfg, i) == Ok(ns)
    ensures !IsSet(cfg, PeerKey(i + |ns|))
  {
    PeersRun(cfg, i, ns);
    UnsetAfter(cfg, (k: nat, node: NodeParam) => Listed(cfg, k, node), i, ns);
  }

  /** `peers.<n>` is set and has an address. */
  predicate Usable(cfg: Settings, n: nat) {
    IsSet(cfg, PeerKey(n)) && Node(cfg, n).address != ""
  }

  /** A run of usable indices extended by one at its front. */
  lemma UsableRun(cfg: Settings, i: nat, n: nat)
    requires Usable(cfg, i) && forall j :: i + 1 <= j < n ==> Usable(cfg, j)
    ensures forall j :: i <= j < n ==> Usable(cfg, j)
  {
  }

  /** A failed enumeration met a set index with an empty address after a run
      of set indices whose addresses were all given. */
  lemma {:induction false} PeersFailure(cfg: Settings, i: nat)
    requires PeersFrom(cfg, i).Err?
    ensures PeersFrom(cfg, i).error == MalformedNodeAddress
    ensures exists n :: i <= n && IsSet(cfg, PeerKey(n)) && !Usable(cfg, n) && forall j :: i <= j < n ==> Usable(cfg, j)
    decreases Pow10(MaxKeyLength(cfg.Keys)) - i
  {
    if !IsSet(cfg, PeerKey(i)) {
      assert false;
    }
    PeerIndexBound(cfg, i);
    PeersFromStep(cfg, i);
    if Node(cfg, i).address != "" {
      PeersFailure(cfg, i + 1);
      var n :| i + 1 <= n && IsSet(cfg, PeerKey(n)) && !Usable(cfg, n) && forall j :: i + 1 <= j < n ==> Usable(cfg, j);
      UsableRun(cfg, i, n);
    } else {
      assert !Usable(cfg, i);
    }
  }

  /** `initPool`: the pool parameters, or the fatal message. */
  function PoolParamsOf(cfg: Settings, key: PrivateKey): (r: Result<PoolParams, string>)
    ensures r.Ok? <==> PeersFrom(cfg, 0).Ok?
    ensures r.Err? ==> r.error == MalformedNodeAddress
    ensures r.Ok? ==> r.value.signer == key && r.value.nodes == PeersFrom(cfg, 0).value
  {
    match PeersFrom(cfg, 0)
    case Err(e) => Err(e)
    case Ok(nodes) =>
      Ok(PoolParams(
        key,
        PositiveOr(GetDuration(cfg, ConnectTimeoutKey), DefaultConnectTimeout),
        PositiveOr(GetDuration(cfg, RequestTimeoutKey), DefaultRequestTimeout),
        PositiveOr(GetDuration(cfg, RebalanceTimerKey), DefaultRebalanceTimer),
        nodes))
  }

  /** The three timeouts are always positive; a positive setting is kept,
      anything else becomes 30 s, 15 s and 15 s. */
  lemma PoolTimeouts(cfg: Settings, key: PrivateKey)
    requires PoolParamsOf(cfg, key).Ok?
    ensures var p := PoolParamsOf(cfg, key).value;
      var conn, req, reb := GetDuration(cfg, ConnectTimeoutKey), GetDuration(cfg, RequestTimeoutKey), GetDuration(cfg, RebalanceTimerKey);
      && p.signer == key
      && p.nodeDialTimeout > 0 && p.healthcheckTimeout > 0 && p.rebalanceInterval > 0
      && (conn > 0 ==> p.nodeDialTimeout == conn) && (conn <= 0 ==> p.nodeDialTimeout == 30 * Second)
      && (req > 0 ==> p.healthcheckTimeout == req) && (req <= 0 ==> p.healthcheckTimeout == 15 * Second)
      && (reb > 0 ==> p.rebalanceInterval == reb) && (reb <= 0 ==> p.rebalanceInterval == 15 * Second)
  {
  }

  // ---------------------------------------------------------------------
  // newApp
  // ---------------------------------------------------------------------

  /** `newApp`: the key, then the authenticator's configuration, then the
      pool, stopping at the first fatal message. */
  function Startup(cfg: Settings, loadWallet: WalletLoader, codecs: Codecs): (r: Result<(AuthConfig, PoolParams), string>)
    ensures r.Err? ==> r.error in [CredentialsFailed, MalformedContainerID, MalformedUserID, ServicesFailed, MalformedNodeAddress]
    ensures r.Ok? ==> GetKey(cfg, loadWallet).Ok? && r.value.0.bearer.key == r.value.1.signer == GetKey(cfg, loadWallet).value
  {
    match GetKey(cfg, loadWallet)
    case Err(_) => Err(CredentialsFailed)
    case Ok(key) =>
      match AuthCfgOf(cfg, key, codecs)
      case Err(e) => Err(e)
      case Ok(authCfg) =>
        match PoolParamsOf(cfg, key)
        case Err(e) => Err(e)
        case Ok(pool) => Ok((authCfg, pool))
  }

  /** Without a wallet path start-up stops at the key, before the wallet,
      the identifiers, the services or the peers are looked at. */
  lemma StartupNeedsWalletPath(cfg: Settings, w1: WalletLoader, w2: WalletLoader, c1: Codecs, c2: Codecs)
    requires GetString(cfg, WalletPathKey) == ""
    ensures Startup(cfg, w1, c1) == Startup(cfg, w2, c2) == Err(CredentialsFailed)
  {
    GetKeyNeedsPath(cfg, w1, w2);
  }

  const NoAuthConfig: AuthConfig :=
    AuthConfig(Bearer.Config("", [], None, [], 0, 0, 0), "", map[], false, "", "")

  const NoPool: PoolParams := PoolParams([], 0, 0, 0, [])

  /** `app`: the settings it was given, the authenticator's configuration and
      the pool parameters, both filled in during start-up. */
  class App {
    const cfg: Settings
    var authCfg: AuthConfig
    var pool: PoolParams

    constructor (cfg: Settings)
      ensures this.cfg == cfg && authCfg == NoAuthConfig && pool == NoPool
    {
      this.cfg := cfg;
      authCfg := NoAuthConfig;
      pool := NoPool;
    }

    /** `newApp` after the options are applied. */
    method Init(loadWallet: WalletLoader, codecs: Codecs) returns (fatal: Option<string>)
      modifies this
      ensures match Startup(cfg, loadWallet, codecs)
        case Ok(p) => fatal.None? && authCfg == p.0 && pool == p.1
        case Err(e) => fatal == Some(e)
    {
      var key := GetKey(cfg, loadWallet);
      if key.Err? {
        return Some(CredentialsFailed);
      }
      fatal := InitAuthCfg(key.value, codecs);
      if fatal.Some? {
        return;
      }
      fatal := InitPool(key.value);
    }

    /** `initAuthCfg`: the defaults first, then one service per section. */
    method InitAuthCfg(key: PrivateKey, codecs: Codecs) returns (fatal: Option<string>)
      modifies this
      ensures match AuthCfgOf(cfg, key, codecs)
        case Ok(c) => fatal.None? && authCfg == c
        case Err(e) => fatal == Some(e)
      ensures pool == old(pool)
    {
      var containerID := codecs.containerID(GetString(cfg, ContainerIDKey));
      if containerID.None? {
        return Some(MalformedContainerID);
      }
      var cfgUser := GetString(cfg, UserIDKey);
      var userID: Option<UserId> := None;
      if cfgUser != "" {
        userID := codecs.userID(cfgUser);
        if userID.None? {
          return Some(MalformedUserID);
        }
      }
      authCfg := ReadAuthCfg(key, containerID.value, userID);
      var redirectURL := authCfg.redirectURL;
      assert AuthCfgOf(cfg, key, codecs) == match OauthServices(cfg, CallbackURL(redirectURL))
        case Err(e) => Err(e)
        case Ok(services) => Ok(authCfg.(oauth := services));
      fatal := AddOauthServices(CallbackURL(redirectURL));
    }

    /** The defaults of `initAuthCfg`: each zero or empty setting replaced by
        its default, with the decoded IDs and no services yet. */
    method ReadAuthCfg(key: PrivateKey, containerID: Eacl.ContainerId, userID: Option<UserId>) returns (c: AuthConfig)
      ensures c == BaseAuthCfg(cfg, key, containerID, userID)
    {
      var emailAttr := GetString(cfg, EmailAttrKey);
      if |emailAttr| == 0 {
        emailAttr := DefaultEmailAttr;
      }
      var lifetime := GetUint64(cfg, BearerLifetimeKey);
      if lifetime == 0 {
        lifetime := DefaultBearerLifetime;
      }
      var maxObjectSize := GetUint64(cfg, MaxObjectSizeKey);
      if maxObjectSize == 0 {
        maxObjectSize := DefaultMaxObjectSize;
      }
      var objectMaxLifetime := GetDuration(cfg, MaxObjectLifetimeKey);
      if objectMaxLifetime == 0 {
        objectMaxLifetime := DefaultMaxObjectLifetime;
      }
      var listenAddress := GetString(cfg, ListenAddressKey);
      if |listenAddress| == 0 {
        listenAddress := DefaultListenAddress;
      }
      var bearerCookieName := GetString(cfg, BearerCookieNameKey);
      if |bearerCookieName| == 0 {
        bearerCookieName := DefaultBearerCookieName;
      }
      var redirectURL := GetString(cfg, RedirectURLKey);
      c := AuthConfig(
        Bearer.Config(emailAttr, key, userID, containerID, lifetime, maxObjectSize, objectMaxLifetime),
        bearerCookieName, map[],
        GetString(cfg, TLSCertificateKey) != "" || GetString(cfg, TLSKeyKey) != "",
        listenAddress, redirectURL);
    }

    /** The loop of `initAuthCfg` over the `oauth` sections: one service per
        section, added to the (empty) service map. */
    method AddOauthServices(callbackURL: string) returns (fatal: Option<string>)
      requires authCfg.oauth == map[]
      modifies this
      ensures match OauthServices(cfg, callbackURL)
        case Ok(services) => fatal.None? && authCfg == old(authCfg).(oauth := services)
        case Err(e) => fatal == Some(e)
      ensures pool == old(pool)
    {
      var names := SectionNames(cfg, OauthKey);
      var todo := names;
      while todo != {}
        invariant todo <= names
        invariant forall n :: n in names - todo ==> Supported(n)
        invariant authCfg == old(authCfg).(oauth := ServiceMap(cfg, names - todo, callbackURL))
        invariant pool == old(pool)
        decreases todo
      {
        var name :| name in todo;
        var oauth := OauthConfigOf(cfg, name, callbackURL);
        var serviceConfig := NewServiceConfig(name, oauth);
        if serviceConfig.Err? {
          assert !Supported(name);
          return Some(ServicesFailed);
        }
        ghost var done := names - todo;
        ServiceMapAdd(cfg, done, name, callbackURL);
        authCfg := authCfg.(oauth := authCfg.oauth[name := serviceConfig.value]);
        todo := todo - {name};
        assert names - todo == done + {name};
      }
      assert names - todo == names;
      fatal := None;
    }

    /** `initPool`: the timeouts, then the peers up to the first unset index. */
    method InitPool(key: PrivateKey) returns (fatal: Option<string>)
      modifies this
      ensures match PoolParamsOf(cfg, key)
        case Ok(p) => fatal.None? && pool == p
        case Err(e) => fatal == Some(e)
      ensures authCfg == old(authCfg)
    {
      var connTimeout := GetDuration(cfg, ConnectTimeoutKey);
      if connTimeout <= 0 {
        connTimeout := DefaultConnectTimeout;
      }
      var healthcheckTimeout := GetDuration(cfg, RequestTimeoutKey);
      if healthcheckTimeout <= 0 {
        healthcheckTimeout := DefaultRequestTimeout;
      }
      var rebalanceInterval := GetDuration(cfg, RebalanceTimerKey);
      if rebalanceInterval <= 0 {
        rebalanceInterval := DefaultRebalanceTimer;
      }

      var peers := CollectPeers();
      if peers.Err? {
        return Some(peers.error);
      }
      pool := PoolParams(key, connTimeout, healthcheckTimeout, rebalanceInterval, peers.value);
      fatal := None;
    }

    /** The body of `initPool`'s loop at `peers.<i>`: the address as it is,
        and a weight and priority that are not positive replaced by 1. */
    method ReadNode(i: nat) returns (node: NodeParam)
      ensures node == Node(cfg, i)
    {
      var address := GetString(cfg, NodeKey(i, "address"));
      var weight := GetFloat64(cfg, NodeKey(i, "weight"));
      var priority := GetInt(cfg, NodeKey(i, "priority"));
      if weight <= 0.0 {
        weight := 1.0;
      }
      if priority <= 0 {
        priority := 1;
      }
      node := NodeParam(priority, address, weight);
    }

    /** The loop of `initPool` over `peers.0`, `peers.1`, ...: the nodes up to
        the first index that is not set, or the fatal message. */
    method CollectPeers() returns (r: Result<seq<NodeParam>, string>)
      ensures r == PeersFrom(cfg, 0)
    {
      var nodes: seq<NodeParam> := [];
      var i: nat := 0;
      PrependNothing(PeersFrom(cfg, 0));
      while IsSet(cfg, PeerKey(i))
        invariant PeersFrom(cfg, 0) == Prepend(nodes, PeersFrom(cfg, i))
        decreases Pow10(MaxKeyLength(cfg.Keys)) - i
      {
        PeerIndexBound(cfg, i);
        var node := ReadNode(i);
        if node.address == "" {
          PeersBlocked(cfg, nodes, i);
          return Err(MalformedNodeAddress);
        }
        PeersExtend(cfg, nodes, i, node);
        nodes := nodes + [node];
        i := i + 1;
        assert PeersFrom(cfg, 0) == Prepend(nodes, PeersFrom(cfg, i));
      }
      assert PeersFrom(cfg, i) == Ok([]);
      assert nodes + [] == nodes;
      return Ok(nodes);
    }
  }
}
