/** Extended ACL tables of the NeoFS storage network, as far as the bearer
    policy uses them: the values the builder calls of `eacl` produce, and the
    first-match-wins evaluation the storage nodes apply to such a table.
    The SDK itself is not part of this model; the filter keys below are the
    SDK's reserved names for the content type, the expiration epoch and the
    payload length of an object. */
module Eacl {
  import opened Common
  import opened Encoding

  type ContainerId = seq<Byte>

  datatype Action = Allow | Deny
  datatype Operation = Get | Head | Put | Delete | Search | Range | RangeHash
  datatype Role = User | System | Others
  datatype Match = StringEqual | StringNotEqual | NumLE
  datatype HeaderType = HeaderFromObject

  datatype Filter = Filter(from: HeaderType, matcher: Match, key: string, value: string)

  /** A target formed from a role alone (no public keys). */
  datatype Target = Target(role: Role)

  datatype Record = Record(action: Action, operation: Operation, filters: seq<Filter>, targets: seq<Target>)

  datatype Table = Table(container: ContainerId, records: seq<Record>)

  const ContentTypeKey: string := "Content-Type"
  const ExpirationEpochKey: string := "__NEOFS__EXPIRATION_EPOCH"
  const PayloadLengthKey: string := "$Object:payloadLength"

  /** `rec.AddObjectAttributeFilter(m, key, value)`. */
  function ObjectAttributeFilter(m: Match, key: string, value: string): (f: Filter)
    ensures f.from == HeaderFromObject && f.key == key && f.value == value && f.matcher == m
  {
    Filter(HeaderFromObject, m, key, value)
  }

  /** `rec.AddObjectPayloadLengthFilter(m, size)`: the size is stored in decimal. */
  function PayloadLengthFilter(m: Match, size: Uint64): (f: Filter)
    ensures f.key == PayloadLengthKey && f.matcher == m
    ensures ParseDecimal(f.value) == Some(size as nat)
  {
    DecimalRoundTrip(size);
    Filter(HeaderFromObject, m, PayloadLengthKey, FormatUint(size))
  }

  // ---------------------------------------------------------------------
  // Evaluation
  // ---------------------------------------------------------------------

  /** The headers of the object a request is about, by key. */
  type Headers = map<string, string>

  predicate Matches(m: Match, header: string, value: string) {
    match m
    case StringEqual => header == value
    case StringNotEqual => header != value
    case NumLE =>
      ParseDecimal(header).Some? && ParseDecimal(value).Some?
      && ParseDecimal(header).value <= ParseDecimal(value).value
  }

  /** A filter holds only when the object carries the header it names. */
  predicate FilterHolds(f: Filter, hdrs: Headers) {
    f.key in hdrs && Matches(f.matcher, hdrs[f.key], f.value)
  }

  /** The opposite reading of a missing header: a "not equal" filter holds
      when the object lacks the header, and any other filter does not. */
  predicate LenientFilterHolds(f: Filter, hdrs: Headers) {
    if f.key in hdrs then Matches(f.matcher, hdrs[f.key], f.value) else f.matcher == StringNotEqual
  }

  predicate TargetsRole(r: Record, role: Role) {
    exists t :: t in r.targets && t.role == role
  }

  predicate Applies(r: Record, op: Operation, role: Role, hdrs: Headers) {
    && r.operation == op
    && TargetsRole(r, role)
    && forall f :: f in r.filters ==> FilterHolds(f, hdrs)
  }

  /** The action of the first record that applies, or `None` when no record
      does (the container's basic ACL then decides, outside this model). */
  function Decide(records: seq<Record>, op: Operation, role: Role, hdrs: Headers): (r: Option<Action>)
    ensures r.None? <==> forall i :: 0 <= i < |records| ==> !Applies(records[i], op, role, hdrs)
    ensures r.Some? ==> exists i :: 0 <= i < |records| && Applies(records[i], op, role, hdrs)
                                    && r.value == records[i].action
                                    && forall j :: 0 <= j < i ==> !Applies(records[j], op, role, hdrs)
  {
    if records == [] then None
    else if Applies(records[0], op, role, hdrs) then Some(records[0].action)
    else
      var r := Decide(records[1..], op, role, hdrs);
      assert forall i :: 1 <= i < |records| ==> records[i] == records[1..][i - 1];
      r
  }
}
