/** The bearer token generator (bearer/bearer.go): from a verified email it
    builds an ordered eACL table that lets the holder upload into one
    container under a size cap, an expiration marker and a content-type
    denylist, binds it into a token that expires `LifeTime` epochs from now,
    signs it and returns it encoded, together with the hashed email. */
module Bearer {
  import opened Common
  import opened Encoding
  import opened Eacl

  type UserId = seq<Byte>
  type PrivateKey = seq<Byte>

  /** A SHA-256 digest (FIPS 180-4): 32 bytes. */
  type Digest = d: seq<Byte> | |d| == 32 witness seq(32, i => 0)

  /** Go's `time.Duration`: nanoseconds in an `int64`. */
  type Duration = Int64

  /** `bearer.Config`. */
  datatype Config = Config(
    emailAttr: string,
    key: PrivateKey,
    userID: Option<UserId>,
    containerID: ContainerId,
    lifeTime: Uint64,
    maxObjectSize: Uint64,
    objectMaxLifetime: Duration)

  /** What the token carries before signing: table, optional subject, expiry. */
  datatype TokenBody = TokenBody(eacl: Table, subject: Option<UserId>, exp: Uint64)

  datatype SignedToken = SignedToken(body: TokenBody, signature: seq<Byte>)

  /** The library primitives NewBearer relies on, supplied by the caller:
      SHA-256 over the bytes of a string, RFC 6979 ECDSA signing (which fails
      when the key is unusable), and marshalling followed by standard base64
      (section 4 of RFC 4648). */
  datatype Crypto = Crypto(
    sha256: string -> Digest,
    sign: (PrivateKey, TokenBody) -> Result<seq<Byte>, string>,
    encode: SignedToken -> string)

  /** The two strings NewBearer returns on success. */
  datatype Issued = Issued(token: string, hashedEmail: string)

  /** The content types the Allow record refuses, in the order of its filters. */
  const DeniedContentTypes: seq<string> :=
    ["application/javascript", "text/javascript", "application/xhtml+xml", "text/html", "text/htmlh", ""]

  /** `fmt.Sprintf("%x", sha256.Sum256([]byte(email)))`. */
  function HashedEmail(crypto: Crypto, email: string): (h: string)
    ensures |h| == 64 && IsLowerHex(h)
    ensures HexDecode(h) == Some(crypto.sha256(email))
  {
    HexRoundTrip(crypto.sha256(email));
    HexEncode(crypto.sha256(email))
  }

  /** `Duration.Milliseconds()`: truncating division of the nanoseconds. */
  function Milliseconds(d: Duration): (ms: Int64)
    ensures d >= 0 ==> 0 <= ms * 1_000_000 <= d < (ms + 1) * 1_000_000
    ensures d < 0 ==> ms as int == -((-(d as int)) / 1_000_000) && ms <= 0
  {
    TruncDivBounds(if d >= 0 then d else 0, 1_000_000);
    TruncDiv(d, 1_000_000)
  }

  /** `uint64(ObjectMaxLifetime.Milliseconds() / msPerEpoch)`. */
  function Epochs(maxLifetime: Duration, msPerEpoch: Int64): (e: Uint64)
    requires msPerEpoch != 0
    ensures maxLifetime >= 0 && msPerEpoch > 0 ==>
              e * msPerEpoch <= Milliseconds(maxLifetime) < (e + 1) * msPerEpoch
  {
    var ms := Milliseconds(maxLifetime);
    var q := TruncDiv(ms, msPerEpoch);
    assert maxLifetime >= 0 && msPerEpoch > 0 ==> 0 <= q * msPerEpoch <= ms < (q + 1) * msPerEpoch by {
      if maxLifetime >= 0 && msPerEpoch > 0 {
        TruncDivBounds(ms, msPerEpoch);
      }
    }
    ToUint64(q)
  }

  /** `currentEpoch + LifeTime`, in `uint64`. */
  function Expiry(cfg: Config, currentEpoch: Uint64): Uint64 {
    Add64(currentEpoch, cfg.lifeTime)
  }

  /** `currentEpoch + LifeTime + epochs`, in `uint64`. */
  function ExpirationBound(cfg: Config, currentEpoch: Uint64, epochs: Uint64): Uint64 {
    Add64(Add64(currentEpoch, cfg.lifeTime), epochs)
  }

  /** The filters of the Allow record, in the order they are added. */
  function AllowFilters(cfg: Config, hashedEmail: string, bound: Uint64): (fs: seq<Filter>)
    ensures |fs| == 9 && forall i :: 0 <= i < |fs| ==> fs[i].from == HeaderFromObject
    ensures fs[0].key == cfg.emailAttr && fs[0].value == hashedEmail
  {
    [ ObjectAttributeFilter(StringEqual, cfg.emailAttr, hashedEmail),
      Filter(HeaderFromObject, StringNotEqual, ContentTypeKey, "application/javascript"),
      Filter(HeaderFromObject, StringNotEqual, ContentTypeKey, "text/javascript"),
      Filter(HeaderFromObject, StringNotEqual, ContentTypeKey, "application/xhtml+xml"),
      Filter(HeaderFromObject, StringNotEqual, ContentTypeKey, "text/html"),
      Filter(HeaderFromObject, StringNotEqual, ContentTypeKey, "text/htmlh"),
      Filter(HeaderFromObject, StringNotEqual, ContentTypeKey, ""),
      PayloadLengthFilter(NumLE, cfg.maxObjectSize),
      Filter(HeaderFromObject, StringEqual, ExpirationEpochKey, FormatUint(bound)) ]
  }

  /** The table: an Allow-Put record with the filters above, then an
      unconditional Deny-Put record, both for the "others" role. */
  function PolicyTable(cfg: Config, hashedEmail: string, bound: Uint64): (t: Table)
    ensures t.container == cfg.containerID && |t.records| == 2
    ensures t.records[0].action == Allow && t.records[1].action == Deny
  {
    Table(cfg.containerID,
          [ Record(Allow, Put, AllowFilters(cfg, hashedEmail, bound), [Target(Others)]),
            Record(Deny, Put, [], [Target(Others)]) ])
  }

  /** The token NewBearer signs for `email` at `currentEpoch`. */
  function MintedBody(cfg: Config, crypto: Crypto, email: string, currentEpoch: Uint64, msPerEpoch: Int64): (b: TokenBody)
    requires msPerEpoch != 0
    ensures b.exp == Expiry(cfg, currentEpoch) && b.subject == cfg.userID
    ensures b.eacl.container == cfg.containerID && |b.eacl.records| == 2
    ensures |b.eacl.records[0].filters| == 9 && b.eacl.records[0].filters[0].value == HashedEmail(crypto, email)
    ensures b.eacl == PolicyTable(cfg, HashedEmail(crypto, email),
                                  ExpirationBound(cfg, currentEpoch, Epochs(cfg.objectMaxLifetime, msPerEpoch)))
  {
    var bound := ExpirationBound(cfg, currentEpoch, Epochs(cfg.objectMaxLifetime, msPerEpoch));
    TokenBody(PolicyTable(cfg, HashedEmail(crypto, email), bound), cfg.userID, Expiry(cfg, currentEpoch))
  }

  /** `Generator.NewBearer(email, currentEpoch, msPerEpoch)`. An `Err` stands
      for the Go result `("", "", err)`. */
  function NewBearer(cfg: Config, crypto: Crypto, email: string, currentEpoch: Uint64, msPerEpoch: Int64)
    : (r: Result<Issued, string>)
    requires msPerEpoch != 0
    ensures r.Ok? <==> crypto.sign(cfg.key, MintedBody(cfg, crypto, email, currentEpoch, msPerEpoch)).Ok?
    ensures r.Err? ==> r.error == crypto.sign(cfg.key, MintedBody(cfg, crypto, email, currentEpoch, msPerEpoch)).error
    ensures r.Ok? ==> |r.value.hashedEmail| == 64 && IsLowerHex(r.value.hashedEmail)
    ensures r.Ok? ==> r.value.hashedEmail
                      == MintedBody(cfg, crypto, email, currentEpoch, msPerEpoch).eacl.records[0].filters[0].value
    ensures r.Ok? ==>
              var body := MintedBody(cfg, crypto, email, currentEpoch, msPerEpoch);
              r.value.token == crypto.encode(SignedToken(body, crypto.sign(cfg.key, body).value))
  {
    var hashed := HashedEmail(crypto, email);
    var body := MintedBody(cfg, crypto, email, currentEpoch, msPerEpoch);
    match crypto.sign(cfg.key, body)
    case Err(e) => Err(e)
    case Ok(signature) => Ok(Issued(crypto.encode(SignedToken(body, signature)), hashed))
  }

  // ---------------------------------------------------------------------
  // Properties of the issued policy
  // ---------------------------------------------------------------------

  /** Exactly two records, Allow then Deny, both Put for "others"; the Deny
      record has no filters. */
  lemma TableShape(cfg: Config, hashedEmail: string, bound: Uint64)
    ensures var t := PolicyTable(cfg, hashedEmail, bound);
      && t.container == cfg.containerID
      && |t.records| == 2
      && t.records[0].action == Allow && t.records[1].action == Deny
      && t.records[0].operation == Put && t.records[1].operation == Put
      && t.records[0].targets == [Target(Others)] && t.records[1].targets == [Target(Others)]
      && t.records[1].filters == []
  {
  }

  /** The Allow record's filters, in order: the email attribute equals the
      hash, the content type differs from each denied type, the payload length
      is at most the maximum, and the expiration marker equals the bound. */
  lemma AllowFiltersShape(cfg: Config, hashedEmail: string, bound: Uint64)
    ensures var fs := AllowFilters(cfg, hashedEmail, bound);
      && |fs| == 2 + |DeniedContentTypes| + 1
      && fs[0] == Filter(HeaderFromObject, StringEqual, cfg.emailAttr, hashedEmail)
      && (forall i :: 0 <= i < |DeniedContentTypes| ==>
            fs[1 + i] == Filter(HeaderFromObject, StringNotEqual, ContentTypeKey, DeniedContentTypes[i]))
      && fs[7].from == HeaderFromObject && fs[7].key == PayloadLengthKey && fs[7].matcher == NumLE
      && ParseDecimal(fs[7].value) == Some(cfg.maxObjectSize as nat)
      && fs[8] == Filter(HeaderFromObject, StringEqual, ExpirationEpochKey, FormatUint(bound))
      && ParseDecimal(fs[8].value) == Some(bound as nat)
  {
    DecimalRoundTrip(bound);
  }

  /** Truncating division never overshoots: the epochs added to the bound
      cover at most the configured object lifetime. */
  lemma EpochsWithinLifetime(maxLifetime: Duration, msPerEpoch: Int64)
    requires maxLifetime >= 0 && msPerEpoch > 0
    ensures Epochs(maxLifetime, msPerEpoch) * msPerEpoch <= maxLifetime / 1_000_000
  {
  }

  /** A lifetime of minus one epoch or less wraps around in the conversion
      to `uint64`: the epochs added to the bound come out close to 2^64. */
  lemma EpochsWrap(maxLifetime: Duration, msPerEpoch: Int64)
    requires msPerEpoch > 0 && Milliseconds(maxLifetime) <= -msPerEpoch
    ensures Epochs(maxLifetime, msPerEpoch) == Two64 - (-Milliseconds(maxLifetime)) / msPerEpoch
    ensures Epochs(maxLifetime, msPerEpoch) >= Two64 - Two63
  {
    var ms := Milliseconds(maxLifetime);
    var q := (-ms) / msPerEpoch;
    assert 1 <= q <= Two63;
    assert TruncDiv(ms, msPerEpoch) == -q;
  }

  /** Without `uint64` overflow the token expires no later than the
      expiration marker its table demands. */
  lemma ExpiryNotAfterBound(cfg: Config, currentEpoch: Uint64, epochs: Uint64)
    requires currentEpoch + cfg.lifeTime + epochs < Two64
    ensures Expiry(cfg, currentEpoch) <= ExpirationBound(cfg, currentEpoch, epochs)
    ensures ExpirationBound(cfg, currentEpoch, epochs) == currentEpoch + cfg.lifeTime + epochs
  {
  }

  /** Epoch 100, 30 epochs of lifetime, four days of object lifetime and
      four-hour epochs (24 of them in four days): the marker is "154". */
  lemma ExpirationExample(cfg: Config)
    requires cfg.lifeTime == 30 && cfg.objectMaxLifetime == 4 * 24 * 3600 * 1_000_000_000
    ensures Epochs(cfg.objectMaxLifetime, 4 * 3600 * 1000) == 24
    ensures FormatUint(ExpirationBound(cfg, 100, 24)) == "154"
  {
    assert Milliseconds(cfg.objectMaxLifetime) == 345_600_000;
    assert FormatUint(15) == "15";
  }

  /** The token carries a subject exactly when one is configured. */
  lemma SubjectIffConfigured(cfg: Config, crypto: Crypto, email: string, currentEpoch: Uint64, msPerEpoch: Int64)
    requires msPerEpoch != 0
    ensures MintedBody(cfg, crypto, email, currentEpoch, msPerEpoch).subject.Some? <==> cfg.userID.Some?
    ensures cfg.userID.Some? ==> MintedBody(cfg, crypto, email, currentEpoch, msPerEpoch).subject == cfg.userID
  {
  }

  // ---------------------------------------------------------------------
  // What the policy means under first-match-wins evaluation
  // ---------------------------------------------------------------------

  /** The objects the Allow record admits: carrying the hashed email, a
      content type outside the denylist, a payload length within the maximum
      and exactly the expected expiration marker. */
  predicate Permitted(cfg: Config, hashedEmail: string, bound: Uint64, hdrs: Headers) {
    && cfg.emailAttr in hdrs && hdrs[cfg.emailAttr] == hashedEmail
    && ContentTypeKey in hdrs && hdrs[ContentTypeKey] !in DeniedContentTypes
    && PayloadLengthKey in hdrs && ParseDecimal(hdrs[PayloadLengthKey]).Some?
    && ParseDecimal(hdrs[PayloadLengthKey]).value <= cfg.maxObjectSize
    && ExpirationEpochKey in hdrs && hdrs[ExpirationEpochKey] == FormatUint(bound)
  }

  /** The Allow record applies to an upload by "others" exactly when the
      object is permitted. */
  lemma AllowRecordAppliesIff(cfg: Config, hashedEmail: string, bound: Uint64, hdrs: Headers)
    ensures Applies(PolicyTable(cfg, hashedEmail, bound).records[0], Put, Others, hdrs)
            <==> Permitted(cfg, hashedEmail, bound, hdrs)
  {
    if Permitted(cfg, hashedEmail, bound, hdrs) {
      PermittedAllowApplies(cfg, hashedEmail, bound, hdrs);
    }
    if Applies(PolicyTable(cfg, hashedEmail, bound).records[0], Put, Others, hdrs) {
      AllowAppliesPermitted(cfg, hashedEmail, bound, hdrs);
    }
  }

  lemma PermittedAllowApplies(cfg: Config, hashedEmail: string, bound: Uint64, hdrs: Headers)
    requires Permitted(cfg, hashedEmail, bound, hdrs)
    ensures Applies(PolicyTable(cfg, hashedEmail, bound).records[0], Put, Others, hdrs)
  {
    var fs := AllowFilters(cfg, hashedEmail, bound);
    var rec := PolicyTable(cfg, hashedEmail, bound).records[0];
    assert TargetsRole(rec, Others) by { assert Target(Others) in rec.targets; }
    DecimalRoundTrip(cfg.maxObjectSize);
    forall f | f in fs ensures FilterHolds(f, hdrs) {
    }
  }

  lemma AllowAppliesPermitted(cfg: Config, hashedEmail: string, bound: Uint64, hdrs: Headers)
    requires Applies(PolicyTable(cfg, hashedEmail, bound).records[0], Put, Others, hdrs)
    ensures Permitted(cfg, hashedEmail, bound, hdrs)
  {
    var fs := AllowFilters(cfg, hashedEmail, bound);
    DecimalRoundTrip(cfg.maxObjectSize);
    assert FilterHolds(fs[0], hdrs) && FilterHolds(fs[7], hdrs) && FilterHolds(fs[8], hdrs);
    assert FilterHolds(fs[1], hdrs) && FilterHolds(fs[2], hdrs) && FilterHolds(fs[3], hdrs);
    assert FilterHolds(fs[4], hdrs) && FilterHolds(fs[5], hdrs) && FilterHolds(fs[6], hdrs);
  }

  /** Every upload by "others" is decided by the table, and it is allowed
      exactly for permitted objects. */
  lemma PutByOthersDecided(cfg: Config, hashedEmail: string, bound: Uint64, hdrs: Headers)
    ensures Decide(PolicyTable(cfg, hashedEmail, bound).records, Put, Others, hdrs)
            == Some(if Permitted(cfg, hashedEmail, bound, hdrs) then Allow else Deny)
  {
    var recs := PolicyTable(cfg, hashedEmail, bound).records;
    AllowRecordAppliesIff(cfg, hashedEmail, bound, hdrs);
    assert Applies(recs[1], Put, Others, hdrs) by { assert Target(Others) in recs[1].targets; }
    assert recs[1..] == [recs[1]];
  }

  /** An object without a content type is refused: the denylist filters do
      not hold on a missing header, so it falls through to the Deny record. */
  lemma MissingContentTypeDenied(cfg: Config, hashedEmail: string, bound: Uint64, hdrs: Headers)
    requires ContentTypeKey !in hdrs
    ensures Decide(PolicyTable(cfg, hashedEmail, bound).records, Put, Others, hdrs) == Some(Deny)
  {
    PutByOthersDecided(cfg, hashedEmail, bound, hdrs);
  }

  /** The table says nothing about other operations or other roles. */
  lemma OtherRequestsUndecided(cfg: Config, hashedEmail: string, bound: Uint64, op: Operation, role: Role, hdrs: Headers)
    requires op != Put || role != Others
    ensures Decide(PolicyTable(cfg, hashedEmail, bound).records, op, role, hdrs).None?
  {
    var recs := PolicyTable(cfg, hashedEmail, bound).records;
    forall i | 0 <= i < |recs| ensures !Applies(recs[i], op, role, hdrs) {
      if recs[i].operation == op {
        assert recs[i].targets == [Target(Others)];
        assert !TargetsRole(recs[i], role);
      }
    }
  }

  /** A PNG image of size 0 carrying the hashed email and the expiration
      marker is permitted. */
  lemma SamplePermitted(cfg: Config, hashedEmail: string, bound: Uint64) returns (hdrs: Headers)
    requires cfg.emailAttr != ContentTypeKey && cfg.emailAttr != PayloadLengthKey
    requires cfg.emailAttr != ExpirationEpochKey
    ensures Permitted(cfg, hashedEmail, bound, hdrs)
  {
    hdrs := map[ContentTypeKey := "image/png", PayloadLengthKey := "0",
                ExpirationEpochKey := FormatUint(bound)][cfg.emailAttr := hashedEmail];
  }

  /** The refusal above rests on the reading of a missing header: the same
      object without a content type meets every Allow filter once a "not
      equal" filter on a missing header is read as holding. */
  lemma MissingContentTypeAllowedIfLenient(cfg: Config, hashedEmail: string, bound: Uint64) returns (hdrs: Headers)
    requires cfg.emailAttr != ContentTypeKey && cfg.emailAttr != PayloadLengthKey
    requires cfg.emailAttr != ExpirationEpochKey
    ensures ContentTypeKey !in hdrs
    ensures forall f :: f in AllowFilters(cfg, hashedEmail, bound) ==> LenientFilterHolds(f, hdrs)
    ensures Decide(PolicyTable(cfg, hashedEmail, bound).records, Put, Others, hdrs) == Some(Deny)
  {
    hdrs := map[PayloadLengthKey := "0", ExpirationEpochKey := FormatUint(bound)][cfg.emailAttr := hashedEmail];
    assert hdrs[cfg.emailAttr] == hashedEmail && hdrs[PayloadLengthKey] == "0";
    assert hdrs[ExpirationEpochKey] == FormatUint(bound) && ContentTypeKey !in hdrs;
    LenientAllowFilters(cfg, hashedEmail, bound, hdrs);
    MissingContentTypeDenied(cfg, hashedEmail, bound, hdrs);
  }

  /** Every Allow filter holds leniently on an empty object without a
      content type that carries the email hash and the expiration marker. */
  lemma LenientAllowFilters(cfg: Config, hashedEmail: string, bound: Uint64, hdrs: Headers)
    requires cfg.emailAttr in hdrs && hdrs[cfg.emailAttr] == hashedEmail
    requires PayloadLengthKey in hdrs && hdrs[PayloadLengthKey] == "0"
    requires ExpirationEpochKey in hdrs && hdrs[ExpirationEpochKey] == FormatUint(bound)
    requires ContentTypeKey !in hdrs
    ensures forall f :: f in AllowFilters(cfg, hashedEmail, bound) ==> LenientFilterHolds(f, hdrs)
  {
    var fs := AllowFilters(cfg, hashedEmail, bound);
    DecimalRoundTrip(0);
    assert LenientFilterHolds(fs[0], hdrs) && LenientFilterHolds(fs[7], hdrs) && LenientFilterHolds(fs[8], hdrs);
    assert LenientFilterHolds(fs[1], hdrs) && LenientFilterHolds(fs[2], hdrs) && LenientFilterHolds(fs[3], hdrs);
    assert LenientFilterHolds(fs[4], hdrs) && LenientFilterHolds(fs[5], hdrs) && LenientFilterHolds(fs[6], hdrs);
  }

  /** Record order is load-bearing: some object the table allows is denied
      once the two records are swapped. */
  lemma OrderMatters(cfg: Config, hashedEmail: string, bound: Uint64)
    requires cfg.emailAttr != ContentTypeKey && cfg.emailAttr != PayloadLengthKey
    requires cfg.emailAttr != ExpirationEpochKey
    ensures var recs := PolicyTable(cfg, hashedEmail, bound).records;
      exists hdrs: Headers ::
        && Decide(recs, Put, Others, hdrs) == Some(Allow)
        && Decide([recs[1], recs[0]], Put, Others, hdrs) == Some(Deny)
  {
    var recs := PolicyTable(cfg, hashedEmail, bound).records;
    var hdrs := SamplePermitted(cfg, hashedEmail, bound);
    var swapped := [recs[1], recs[0]];
    PutByOthersDecided(cfg, hashedEmail, bound, hdrs);
    assert Applies(swapped[0], Put, Others, hdrs) by { assert Target(Others) in swapped[0].targets; }
    assert Decide(swapped, Put, Others, hdrs) == Some(Deny);
  }
}
