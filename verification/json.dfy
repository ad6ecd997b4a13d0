/**
 * JSON documents, as far as the API types with custom encodings look at
 * them: strings, arrays, null, and everything else lumped together.
 */
module Json {
  import opened Wrappers

  datatype Json = JNull | JString(s: string) | JArray(items: seq<Json>) | JOther

  /** `json.Unmarshal` into a `[]string`: null gives a nil slice, an array
      of strings and nulls gives its strings (a null element stays ""), and
      anything else fails. `None` inside `Ok` is the nil slice. */
  function DecodeStrings(data: Json): (r: Result<Option<seq<string>>>)
    ensures data.JArray? && r.Ok? ==> r.value.Some? && |r.value.value| == |data.items|
    ensures data.JString? || data.JOther? ==> r.Err?
  {
    match data
    case JNull => Ok(None)
    case JArray(items) =>
      var decoded := DecodeItems(items);
      if decoded.Some? then Ok(Some(decoded.value)) else Err("cannot unmarshal into []string")
    case _ => Err("cannot unmarshal into []string")
  }

  function DecodeItems(items: seq<Json>): (r: Option<seq<string>>)
    ensures r.Some? ==> |r.value| == |items|
    ensures r.Some? <==> forall i :: 0 <= i < |items| ==> items[i].JString? || items[i].JNull?
    ensures r.Some? ==> forall i :: 0 <= i < |items| ==> r.value[i] == (if items[i].JString? then items[i].s else "")
  {
    if |items| == 0 then Some([])
    else
      var rest := DecodeItems(items[1..]);
      var head := items[0];
      if rest.None? || !(head.JString? || head.JNull?) then
        assert !(head.JString? || head.JNull?) ==> !(items[0].JString? || items[0].JNull?);
        assert rest.None? ==> exists i :: 1 <= i < |items| && !(items[i].JString? || items[i].JNull?) by {
          if rest.None? {
            var i :| 0 <= i < |items[1..]| && !(items[1..][i].JString? || items[1..][i].JNull?);
            assert items[i + 1] == items[1..][i];
          }
        }
        None
      else Some([if head.JString? then head.s else ""] + rest.value)
  }

  /** `json.Marshal` of a `[]string`: a nil slice is null. */
  function EncodeStrings(list: Option<seq<string>>): (r: Json)
    ensures list.None? <==> r.JNull?
    ensures list.Some? ==> r.JArray? && |r.items| == |list.value|
  {
    if list.None? then JNull else JArray(seq(|list.value|, i requires 0 <= i < |list.value| => JString(list.value[i])))
  }

  /** Encoding a string list and decoding it gives the list back, nil
      included. */
  lemma DecodeEncodeStrings(list: Option<seq<string>>)
    ensures DecodeStrings(EncodeStrings(list)) == Ok(list)
  {
    if list.Some? {
      var items := EncodeStrings(list).items;
      var d := DecodeItems(items);
      assert d.Some?;
      assert d.value == list.value;
    }
  }

  /** The items of an array of strings. */
  predicate AllStrings(items: seq<Json>)
  {
    forall i :: 0 <= i < |items| ==> items[i].JString?
  }

  /** An array of strings decodes to a list that encodes back to it. */
  lemma EncodeDecodeStrings(items: seq<Json>)
    requires AllStrings(items)
    ensures DecodeStrings(JArray(items)).Ok?
    ensures EncodeStrings(DecodeStrings(JArray(items)).value) == JArray(items)
  {
    var d := DecodeItems(items);
    assert d.Some?;
    assert EncodeStrings(Some(d.value)).items == items;
  }
}
