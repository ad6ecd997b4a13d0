/**
 * `StringOrSlice`, the value type of an automation's resource
 * specification: a single string or a list of strings, told apart by a flag.
 */
module Automations {
  import opened Wrappers
  import opened Json

  /** The three fields of the Go struct; `list` is `None` for a nil slice. */
  datatype StringOrSlice = StringOrSlice(str: string, list: Option<seq<string>>, isList: bool)

  /** The zero value a decoder starts from. */
  const Zero := StringOrSlice("", None, false)

  const NotStringOrList := "ResourceSpecification must be string or string array"

  /** `MarshalJSON`: the list when the flag is set, the string otherwise. */
  function Marshal(v: StringOrSlice): (r: Json)
    ensures v.isList ==> r == EncodeStrings(v.list)
    ensures !v.isList ==> r == JString(v.str)
  {
    if v.isList then EncodeStrings(v.list) else JString(v.str)
  }

  /** `UnmarshalJSON` on the receiver `v`: try a string first (null counts
      as one and gives ""), then a list of strings; only the fields of the
      successful reading are written. */
  function Unmarshal(v: StringOrSlice, data: Json): (r: Result<StringOrSlice>)
    ensures data.JString? ==> r == Ok(v.(str := data.s, isList := false))
    ensures data.JNull? ==> r == Ok(v.(str := "", isList := false))
    ensures data.JOther? ==> r == Err(NotStringOrList)
    ensures data.JArray? ==> (r.Ok? <==> DecodeStrings(data).Ok?)
    ensures r.Ok? && data.JArray? ==> r.value == v.(list := DecodeStrings(data).value, isList := true)
  {
    if data.JString? then Ok(v.(str := data.s, isList := false))
    else if data.JNull? then Ok(v.(str := "", isList := false))
    else
      var list := DecodeStrings(data);
      if list.Ok? then Ok(v.(list := list.value, isList := true))
      else Err(NotStringOrList)
  }

  /** Decoding then encoding reproduces a string, or an array of strings. */
  lemma MarshalUnmarshal(v: StringOrSlice, data: Json)
    requires data.JString? || (data.JArray? && AllStrings(data.items))
    ensures Unmarshal(v, data).Ok? && Marshal(Unmarshal(v, data).value) == data
  {
    if data.JArray? {
      EncodeDecodeStrings(data.items);
    }
  }

  /** Encoding then decoding into the same receiver gives it back, unless the
      flag claims a list that is nil: that encodes as null, which decodes as
      the empty string. */
  lemma UnmarshalMarshal(v: StringOrSlice)
    ensures !(v.isList && v.list.None?) ==> Unmarshal(v, Marshal(v)) == Ok(v)
    ensures v.isList && v.list.None? ==> Unmarshal(v, Marshal(v)) == Ok(v.(str := "", isList := false))
  {
    if v.isList {
      DecodeEncodeStrings(v.list);
    }
  }

  /** The specification `{"k": "flow-123"}` and `{"k": ["flow-123", "flow-456"]}`
      decode into the expected values. */
  lemma DecodeExamples()
    ensures Unmarshal(Zero, JString("flow-123")) == Ok(StringOrSlice("flow-123", None, false))
    ensures Unmarshal(Zero, JArray([JString("flow-123"), JString("flow-456")])) ==
      Ok(StringOrSlice("", Some(["flow-123", "flow-456"]), true))
  {
    var items := [JString("flow-123"), JString("flow-456")];
    assert DecodeItems(items).Some?;
    assert DecodeItems(items).value == ["flow-123", "flow-456"];
  }
}
