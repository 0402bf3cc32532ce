/**
 * Stream metadata as the TCP client writes it to and reads it from a stream's
 * metadata stream: access-control role lists, their serde encoding, and the
 * conversions between the public metadata record and its wire form.
 *
 * Serialisation is modelled at the level of serde's data model: a `Datum` is
 * what a serializer is asked to write and what a deserializer hands to a
 * visitor. A JSON document would be one concrete rendering of it.
 */
module TcpMetadata {

  import opened Wrappers
  import opened Types

  /** A value of serde's data model, as far as role lists use it. */
  datatype Datum =
    | NoneValue                   // `serialize_none` / `visit_none`
    | Str(text: string)           // `serialize_str` / `visit_str`
    | Sequence(items: seq<Datum>) // `serialize_seq` / `visit_seq`
    | Other                       // any other kind of value (number, map, unit, ...)

  /** A deserialisation error: the kind of value that was expected instead. */
  datatype DeError = InvalidType(expected: string)

  const RolesExpecting: string := "String or a list of String"
  const StringExpecting: string := "a string"

  /** `Roles`: no role list, or a list of role names. */
  datatype Roles = Roles(roles: Option<seq<string>>)

  /** `Roles::default`. */
  function DefaultRoles(): Roles { Roles(None) }

  /** `Roles::from_string`: a single role. */
  function RolesFromString(value: string): (r: Roles)
    ensures r.roles == Some([value])
  {
    Roles(Some([value]))
  }

  /** `Roles::is_empty`: holds exactly for the default (absent) role list. */
  predicate RolesIsEmpty(r: Roles) {
    r.roles.None?
  }

  lemma RolesEmptyIsDefault(r: Roles)
    ensures RolesIsEmpty(r) <==> r == DefaultRoles()
  {
  }

  /** The elements of a role sequence: one string datum per role, in order. */
  function StrItems(roles: seq<string>): (items: seq<Datum>)
    ensures |items| == |roles|
    ensures forall i :: 0 <= i < |roles| ==> items[i] == Str(roles[i])
  {
    if roles == [] then [] else [Str(roles[0])] + StrItems(roles[1..])
  }

  /**
   * What `Roles::serialize` writes: none for no list, a bare string for a
   * list of exactly one role, and a sequence otherwise (the empty list too).
   */
  function Encoded(r: Roles): Datum {
    match r.roles
    case None => NoneValue
    case Some(roles) => if |roles| == 1 then Str(roles[0]) else Sequence(StrItems(roles))
  }

  /** `Roles::serialize`: the element loop of the sequence case, one `serialize_element` per role. */
  method Serialize(r: Roles) returns (d: Datum)
    ensures d == Encoded(r)
  {
    match r.roles {
      case None =>
        d := NoneValue;
      case Some(roles) =>
        if |roles| == 1 {
          return Str(roles[0]);
        }
        var items: seq<Datum> := [];
        for i := 0 to |roles|
          invariant items == StrItems(roles[..i])
        {
          StrItemsAppend(roles[..i], roles[i]);
          assert roles[..i + 1] == roles[..i] + [roles[i]];
          items := items + [Str(roles[i])];
        }
        assert roles[..|roles|] == roles;
        d := Sequence(items);
    }
  }

  lemma {:induction false} StrItemsAppend(roles: seq<string>, role: string)
    ensures StrItems(roles + [role]) == StrItems(roles) + [Str(role)]
  {
    var lhs := StrItems(roles + [role]);
    var rhs := StrItems(roles) + [Str(role)];
    assert |lhs| == |rhs|;
    forall i | 0 <= i < |lhs| ensures lhs[i] == rhs[i] {
      if i < |roles| {
        assert (roles + [role])[i] == roles[i];
      }
    }
  }

  /** What `visit_seq` produces: every element must be a string; the first that is not is the error. */
  function DecodedItems(items: seq<Datum>): (r: Result<seq<string>, DeError>)
    ensures r.Success? <==> forall i :: 0 <= i < |items| ==> items[i].Str?
    ensures r.Success? ==> |r.value| == |items| && forall i :: 0 <= i < |items| ==> r.value[i] == items[i].text
    ensures r.Failure? ==> r.error == InvalidType(StringExpecting)
  {
    if items == [] then Success([])
    else if !items[0].Str? then Failure(InvalidType(StringExpecting))
    else
      var rest :- DecodedItems(items[1..]);
      Success([items[0].text] + rest)
  }

  /** What `visit_seq` returns: the role list, or the first element's error. */
  function DecodedSequence(items: seq<Datum>): Result<Roles, DeError> {
    match DecodedItems(items)
    case Success(roles) => Success(Roles(Some(roles)))
    case Failure(e) => Failure(e)
  }

  /** What `RolesVisitor` produces for each kind of value `deserialize_any` can hand it. */
  function Decoded(d: Datum): Result<Roles, DeError> {
    match d
    case NoneValue => Success(Roles(None))
    case Str(text) => Success(RolesFromString(text))
    case Sequence(items) => DecodedSequence(items)
    case Other => Failure(InvalidType(RolesExpecting))
  }

  /** `RolesVisitor::visit_seq`: pull elements until the sequence ends, pushing each role. */
  method VisitSeq(items: seq<Datum>) returns (r: Result<Roles, DeError>)
    ensures r == DecodedSequence(items)
  {
    var roles: seq<string> := [];
    var i := 0;
    while i < |items|
      invariant 0 <= i <= |items|
      invariant forall k :: 0 <= k < i ==> items[k].Str?
      invariant roles == seq(i, k requires 0 <= k < i => items[k].text)
    {
      if !items[i].Str? {
        return Failure(InvalidType(StringExpecting));
      }
      roles := roles + [items[i].text];
      i := i + 1;
    }
    assert roles == DecodedItems(items).value;
    r := Success(Roles(Some(roles)));
  }

  /** `Roles::deserialize`: `deserialize_any` dispatching to the visitor. */
  method Deserialize(d: Datum) returns (r: Result<Roles, DeError>)
    ensures r == Decoded(d)
  {
    match d {
      case NoneValue => r := Success(Roles(None));
      case Str(text) => r := Success(RolesFromString(text));
      case Sequence(items) => r := VisitSeq(items);
      case Other => r := Failure(InvalidType(RolesExpecting));
    }
  }

  /** Deserialising what was serialised gives back the same role list. */
  lemma RolesRoundTrip(r: Roles)
    ensures Decoded(Encoded(r)) == Success(r)
  {
    if r.roles.Some? {
      var roles := r.roles.value;
      if |roles| == 1 {
        assert [roles[0]] == roles;
      } else {
        var back := DecodedItems(StrItems(roles));
        assert back.value == roles;
      }
    }
  }

  /** A bare string and a one-element sequence decode to the same role list. */
  lemma SingleRoleEncodings(role: string)
    ensures Decoded(Str(role)) == Decoded(Sequence([Str(role)]))
  {
    assert DecodedItems([Str(role)]).value == [role];
  }

  /** `types::StreamAcl`: the five optional role lists. */
  datatype StreamAcl = StreamAcl(
    readRoles: Option<seq<string>>,
    writeRoles: Option<seq<string>>,
    deleteRoles: Option<seq<string>>,
    metaReadRoles: Option<seq<string>>,
    metaWriteRoles: Option<seq<string>>)

  /** `StreamAclInternal`: the same lists, each wrapped as `Roles`. */
  datatype StreamAclInternal = StreamAclInternal(
    readRoles: Roles,
    writeRoles: Roles,
    deleteRoles: Roles,
    metaReadRoles: Roles,
    metaWriteRoles: Roles)

  /** `StreamAclInternal::default`. */
  function DefaultAcl(): StreamAclInternal {
    StreamAclInternal(DefaultRoles(), DefaultRoles(), DefaultRoles(), DefaultRoles(), DefaultRoles())
  }

  function FromAcl(acl: StreamAcl): StreamAclInternal {
    StreamAclInternal(Roles(acl.readRoles), Roles(acl.writeRoles), Roles(acl.deleteRoles),
                      Roles(acl.metaReadRoles), Roles(acl.metaWriteRoles))
  }

  function BuildAcl(internal: StreamAclInternal): StreamAcl {
    StreamAcl(internal.readRoles.roles, internal.writeRoles.roles, internal.deleteRoles.roles,
              internal.metaReadRoles.roles, internal.metaWriteRoles.roles)
  }

  /** `from_acl` and `build_acl` are inverse to each other. */
  lemma AclConversionsInverse(acl: StreamAcl, internal: StreamAclInternal)
    ensures BuildAcl(FromAcl(acl)) == acl
    ensures FromAcl(BuildAcl(internal)) == internal
  {
  }

  /** `StreamAclInternal::is_empty`: all five role lists absent. */
  predicate AclIsEmpty(acl: StreamAclInternal) {
    && RolesIsEmpty(acl.readRoles)
    && RolesIsEmpty(acl.writeRoles)
    && RolesIsEmpty(acl.deleteRoles)
    && RolesIsEmpty(acl.metaReadRoles)
    && RolesIsEmpty(acl.metaWriteRoles)
  }

  /** An ACL is skipped on serialisation exactly when it is the default one a missing field yields. */
  lemma AclEmptyIsDefault(acl: StreamAclInternal)
    ensures AclIsEmpty(acl) <==> acl == DefaultAcl()
  {
  }

  /** The field names of the ACL object. */
  const ReadKey: string := "$r"
  const WriteKey: string := "$w"
  const DeleteKey: string := "$d"
  const MetaReadKey: string := "$mr"
  const MetaWriteKey: string := "$mw"

  /** One ACL field as serialised: absent when the role list is empty. */
  function Field(key: string, r: Roles): map<string, Datum> {
    if RolesIsEmpty(r) then map[] else map[key := Encoded(r)]
  }

  /** The derived serialisation of `StreamAclInternal`: every non-empty role list under its key. */
  function SerializeAcl(acl: StreamAclInternal): (fields: map<string, Datum>)
    ensures ReadKey in fields <==> !RolesIsEmpty(acl.readRoles)
    ensures WriteKey in fields <==> !RolesIsEmpty(acl.writeRoles)
    ensures DeleteKey in fields <==> !RolesIsEmpty(acl.deleteRoles)
    ensures MetaReadKey in fields <==> !RolesIsEmpty(acl.metaReadRoles)
    ensures MetaWriteKey in fields <==> !RolesIsEmpty(acl.metaWriteRoles)
    ensures forall k :: k in fields ==> k in {ReadKey, WriteKey, DeleteKey, MetaReadKey, MetaWriteKey}
  {
    Field(ReadKey, acl.readRoles) + Field(WriteKey, acl.writeRoles) + Field(DeleteKey, acl.deleteRoles)
    + Field(MetaReadKey, acl.metaReadRoles) + Field(MetaWriteKey, acl.metaWriteRoles)
  }

  /** One ACL field as deserialised: the default role list when the key is missing. */
  function FieldRoles(fields: map<string, Datum>, key: string): Result<Roles, DeError> {
    if key in fields then Decoded(fields[key]) else Success(DefaultRoles())
  }

  /** The derived deserialisation of `StreamAclInternal`: each field decoded or defaulted; other keys ignored. */
  function DeserializeAcl(fields: map<string, Datum>): Result<StreamAclInternal, DeError> {
    var readRoles :- FieldRoles(fields, ReadKey);
    var writeRoles :- FieldRoles(fields, WriteKey);
    var deleteRoles :- FieldRoles(fields, DeleteKey);
    var metaReadRoles :- FieldRoles(fields, MetaReadKey);
    var metaWriteRoles :- FieldRoles(fields, MetaWriteKey);
    Success(StreamAclInternal(readRoles, writeRoles, deleteRoles, metaReadRoles, metaWriteRoles))
  }

  /** Deserialising a serialised ACL gives it back, skipped fields included. */
  lemma AclRoundTrip(acl: StreamAclInternal)
    ensures DeserializeAcl(SerializeAcl(acl)) == Success(acl)
  {
    var fields := SerializeAcl(acl);
    FieldRoundTrip(fields, ReadKey, acl.readRoles);
    FieldRoundTrip(fields, WriteKey, acl.writeRoles);
    FieldRoundTrip(fields, DeleteKey, acl.deleteRoles);
    FieldRoundTrip(fields, MetaReadKey, acl.metaReadRoles);
    FieldRoundTrip(fields, MetaWriteKey, acl.metaWriteRoles);
  }

  lemma FieldRoundTrip(fields: map<string, Datum>, key: string, r: Roles)
    requires key in fields <==> !RolesIsEmpty(r)
    requires key in fields ==> fields[key] == Encoded(r)
    ensures FieldRoles(fields, key) == Success(r)
  {
    if key in fields {
      RolesRoundTrip(r);
    }
  }

  /**
   * The document `{"$maxCount": 42, "$acl": {"$w": "greg", "$r": ["greg", "john"]}}`:
   * its ACL has a one-role write list, a two-role read list, and nothing else.
   */
  lemma AclDocumentExample()
    ensures DeserializeAcl(map[WriteKey := Str("greg"), ReadKey := Sequence([Str("greg"), Str("john")])])
      == Success(StreamAclInternal(Roles(Some(["greg", "john"])), RolesFromString("greg"),
                                   Roles(None), Roles(None), Roles(None)))
  {
    var fields := map[WriteKey := Str("greg"), ReadKey := Sequence([Str("greg"), Str("john")])];
    var back := DecodedItems([Str("greg"), Str("john")]);
    assert back.value == ["greg", "john"];
    assert DeleteKey !in fields && MetaReadKey !in fields && MetaWriteKey !in fields;
  }

  /**
   * `types::StreamMetadata`. Durations, their wire form `Timespan`, and the
   * JSON values of custom properties are not interpreted: they are the type
   * parameters `D`, `T` and `J`.
   */
  datatype StreamMetadata<D, J> = StreamMetadata(
    maxCount: Option<u64>,
    maxAge: Option<D>,
    truncateBefore: Option<u64>,
    cacheControl: Option<D>,
    acl: StreamAcl,
    customProperties: map<string, J>)

  /** `StreamMetadataInternal`: the serialised form. */
  datatype StreamMetadataInternal<T, J> = StreamMetadataInternal(
    maxCount: Option<u64>,
    maxAge: Option<T>,
    truncateBefore: Option<u64>,
    cacheControl: Option<T>,
    acl: StreamAclInternal,
    customProperties: map<string, J>)

  function MapOption<A, B>(o: Option<A>, f: A -> B): Option<B> {
    match o
    case None => None
    case Some(a) => Some(f(a))
  }

  /** `from_metadata`, with `Timespan::from_duration` as `toSpan`. */
  function FromMetadata<D, T, J>(toSpan: D -> T, m: StreamMetadata<D, J>): StreamMetadataInternal<T, J> {
    StreamMetadataInternal(m.maxCount, MapOption(m.maxAge, toSpan), m.truncateBefore,
                           MapOption(m.cacheControl, toSpan), FromAcl(m.acl), m.customProperties)
  }

  /** `build_metadata`, with `Timespan::build_duration` as `fromSpan`. */
  function BuildMetadata<D, T, J>(fromSpan: T -> D, internal: StreamMetadataInternal<T, J>): StreamMetadata<D, J> {
    StreamMetadata(internal.maxCount, MapOption(internal.maxAge, fromSpan), internal.truncateBefore,
                   MapOption(internal.cacheControl, fromSpan), BuildAcl(internal.acl), internal.customProperties)
  }

  /**
   * Converting metadata to its wire form and back keeps the counts, the ACL
   * and the custom properties exactly; the durations come back exactly when
   * the duration/timespan conversions undo each other.
   */
  lemma MetadataRoundTrip<D, T, J>(toSpan: D -> T, fromSpan: T -> D, m: StreamMetadata<D, J>)
    ensures var back := BuildMetadata(fromSpan, FromMetadata(toSpan, m));
      && back.maxCount == m.maxCount
      && back.truncateBefore == m.truncateBefore
      && back.acl == m.acl
      && back.customProperties == m.customProperties
      && back.maxAge.Some? == m.maxAge.Some?
      && back.cacheControl.Some? == m.cacheControl.Some?
    ensures (forall d :: fromSpan(toSpan(d)) == d) ==> BuildMetadata(fromSpan, FromMetadata(toSpan, m)) == m
  {
  }
}
