/**
 * `AccessControlList`, the block-document access field that is either a
 * list of actor IDs or the wildcard `["*"]`.
 */
module BlockDocuments {
  import opened Wrappers
  import opened Framework
  import opened Json

  /** IDs as canonical UUID text; `ids` is `None` for a nil slice. */
  datatype AccessControlList = AccessControlList(ids: Option<seq<string>>, all: bool)

  const Wildcard := "*"
  const InvalidFormat := "invalid AccessControlList format"

  /** `MarshalJSON`: the wildcard list when `all`, else the IDs. */
  function Marshal(acl: AccessControlList): (r: Json)
    ensures acl.all ==> r == JArray([JString(Wildcard)])
    ensures !acl.all ==> r == EncodeStrings(acl.ids)
  {
    if acl.all then JArray([JString(Wildcard)]) else EncodeStrings(acl.ids)
  }

  /** `json.Unmarshal` into `[]uuid.UUID`: null is the nil slice; each
      element must be a string that parses as a UUID, or null, which leaves
      the nil UUID. */
  function DecodeUuids(data: Json, parseUuid: UuidParser): (r: Option<Option<seq<string>>>)
    ensures data.JArray? && r.Some? ==> r.value.Some? && |r.value.value| == |data.items|
  {
    match data
    case JNull => Some(None)
    case JArray(items) =>
      var ids := DecodeUuidItems(items, parseUuid);
      if ids.Some? then Some(Some(ids.value)) else None
    case _ => None
  }

  function DecodeUuidItems(items: seq<Json>, parseUuid: UuidParser): (r: Option<seq<string>>)
    ensures r.Some? ==> |r.value| == |items|
  {
    if |items| == 0 then Some([])
    else
      var rest := DecodeUuidItems(items[1..], parseUuid);
      var head := match items[0]
        case JNull => Some(NilUuid)
        case JString(s) => parseUuid(s)
        case _ => None;
      if rest.Some? && head.Some? then Some([head.value] + rest.value) else None
  }

  /** `UnmarshalJSON`: an ID list first, then the one-element wildcard list;
      anything else is an error. Both fields are written either way. */
  function Unmarshal(data: Json, parseUuid: UuidParser): (r: Result<AccessControlList>)
    ensures r.Ok? && r.value.all ==> r.value.ids.None?
    ensures DecodeUuids(data, parseUuid).Some? ==> r == Ok(AccessControlList(DecodeUuids(data, parseUuid).value, false))
    ensures r.Ok? && r.value.all ==> data == JArray([JString(Wildcard)])
  {
    var ids := DecodeUuids(data, parseUuid);
    if ids.Some? then Ok(AccessControlList(ids.value, false))
    else
      var strings := DecodeStrings(data);
      if strings.Ok? && strings.value.Some? && |strings.value.value| == 1 && strings.value.value[0] == Wildcard then
        Ok(AccessControlList(None, true))
      else Err(InvalidFormat)
  }

  /** Every listed ID is already in canonical form. */
  predicate Canonical(ids: seq<string>, parseUuid: UuidParser)
  {
    forall i :: 0 <= i < |ids| ==> parseUuid(ids[i]) == Some(ids[i])
  }

  lemma {:induction false} DecodeEncodedUuids(ids: seq<string>, parseUuid: UuidParser)
    requires Canonical(ids, parseUuid)
    ensures DecodeUuidItems(EncodeStrings(Some(ids)).items, parseUuid) == Some(ids)
  {
    var items := EncodeStrings(Some(ids)).items;
    if |ids| > 0 {
      assert items[1..] == EncodeStrings(Some(ids[1..])).items;
      DecodeEncodedUuids(ids[1..], parseUuid);
      assert [ids[0]] + ids[1..] == ids;
    }
  }

  /** The wildcard encodes as `["*"]`, and `["*"]` decodes as the wildcard,
      since `*` is no UUID. */
  lemma WildcardRoundTrip(parseUuid: UuidParser)
    requires parseUuid(Wildcard).None?
    ensures Marshal(AccessControlList(None, true)) == JArray([JString(Wildcard)])
    ensures Unmarshal(JArray([JString(Wildcard)]), parseUuid) == Ok(AccessControlList(None, true))
  {
    var items := [JString(Wildcard)];
    assert DecodeUuidItems(items[1..], parseUuid) == Some([]);
    assert DecodeItems(items).Some?;
    assert DecodeItems(items).value == [Wildcard];
  }

  /** Encoding and decoding gives the list back when its IDs are canonical,
      and a wildcard carrying IDs loses them. */
  lemma UnmarshalMarshal(acl: AccessControlList, parseUuid: UuidParser)
    requires parseUuid(Wildcard).None?
    requires acl.ids.Some? ==> Canonical(acl.ids.value, parseUuid)
    ensures !acl.all ==> Unmarshal(Marshal(acl), parseUuid) == Ok(acl)
    ensures acl.all ==> Unmarshal(Marshal(acl), parseUuid) == Ok(AccessControlList(None, true))
  {
    if acl.all {
      WildcardRoundTrip(parseUuid);
    } else if acl.ids.Some? {
      DecodeEncodedUuids(acl.ids.value, parseUuid);
    }
  }
}
