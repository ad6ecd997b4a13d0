/**
 * The slice of the Terraform plugin framework that the provider's helpers
 * touch: attribute values that may be null or unknown, and a response that
 * collects state attributes and error diagnostics while an operation runs.
 */
module Framework {
  import opened Wrappers

  /** A framework attribute value: null, unknown (computed later), or known. */
  datatype Value<T> = Null | Unknown | Known(value: T)

  /** `ValueXxxPointer()`: nil for a null value, a pointer to the zero value
      for an unknown one, and a pointer to the value otherwise. */
  function PointerOf<T>(v: Value<T>, zero: T): (r: Option<T>)
    ensures r.None? <==> v.Null?
    ensures v.Known? ==> r == Some(v.value)
  {
    match v
    case Null => None
    case Unknown => Some(zero)
    case Known(x) => Some(x)
  }

  /** `ValueString()`: the string, or "" for a null or unknown value. */
  function StringOf(v: Value<string>): (r: string)
    ensures v.Known? ==> r == v.value
    ensures !v.Known? ==> r == ""
  {
    if v.Known? then v.value else ""
  }

  /** The text of `uuid.Nil`. */
  const NilUuid := "00000000-0000-0000-0000-000000000000"

  /** `uuid.Parse` followed by `String()`: the canonical text of a valid UUID,
      or `None` when the text does not parse. The parser is a foreign library. */
  type UuidParser = string -> Option<string>

  /** What an operation leaves in a response: the attributes it set and the
      summary of the error it reported, if any. */
  datatype Outcome = Outcome(attrs: map<string, string>, error: Option<string>)

  function ErrorsOf(error: Option<string>): (r: seq<string>)
    ensures |r| <= 1 && (|r| == 1 <==> error.Some?)
    ensures error.Some? ==> r == [error.value]
  {
    if error.Some? then [error.value] else []
  }

  /** `resource.ImportStateResponse` and its kin: the state attributes set so
      far and the summaries of the error diagnostics appended so far. */
  class Response {
    var state: map<string, string>
    var errors: seq<string>

    constructor ()
      ensures state == map[] && errors == []
    {
      state := map[];
      errors := [];
    }

    /** `resp.State.SetAttribute(ctx, path.Root(name), value)`. */
    method SetAttribute(name: string, value: string)
      modifies this
      ensures state == old(state)[name := value] && errors == old(errors)
    {
      state := state[name := value];
    }

    /** `resp.Diagnostics.AddError(summary, detail)`. */
    method AddError(summary: string)
      modifies this
      ensures state == old(state) && errors == old(errors) + [summary]
    {
      errors := errors + [summary];
    }
  }
}
