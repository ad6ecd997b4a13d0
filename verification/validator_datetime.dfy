/**
 * The attribute validator that accepts only RFC 3339 timestamps in the
 * `+00:00` zone, the form the Prefect API returns, so that a refresh does
 * not show a change.
 */
module ValidatorDatetime {
  import opened Wrappers
  import opened Text
  import opened Framework

  /** `time.Parse(time.RFC3339, s)` succeeds; the parser is a library
      function and not part of this model. */
  type Rfc3339Check = string -> bool

  const UtcSuffix := "+00:00"

  function NotTimestamp(path: string): string { path + " is not a valid timestamp" }
  function UnsupportedTimezone(path: string): string { path + " has unsupported timezone" }

  /** The text the checks read: legacy `types.String` keeps "" in an
      unknown value. */
  function CheckedText(v: Value<string>): string
  {
    StringOf(v)
  }

  /** The error summaries `Validate` appends. `config` is the attribute
      read as a string, or the conversion's error. As written, an unknown
      value is checked as the empty string; `corrected` skips it like a
      null one. */
  function ValidationErrors(path: string, config: Result<Value<string>>, isRfc3339: Rfc3339Check, corrected: bool): seq<string>
  {
    if config.Err? then [config.message]
    else if config.value.Null? || (corrected && config.value.Unknown?) then []
    else
      var s := CheckedText(config.value);
      (if isRfc3339(s) then [] else [NotTimestamp(path)]) +
      (if HasSuffix(s, UtcSuffix) then [] else [UnsupportedTimezone(path)])
  }

  /** `Validate` as written. */
  method Validate(resp: Response, path: string, config: Result<Value<string>>, isRfc3339: Rfc3339Check)
    modifies resp
    ensures resp.state == old(resp.state)
    ensures resp.errors == old(resp.errors) + ValidationErrors(path, config, isRfc3339, false)
  {
    ValidateWith(resp, path, config, isRfc3339, false);
  }

  /** `Validate` corrected to leave unknown values alone. */
  method ValidateCorrected(resp: Response, path: string, config: Result<Value<string>>, isRfc3339: Rfc3339Check)
    modifies resp
    ensures resp.state == old(resp.state)
    ensures resp.errors == old(resp.errors) + ValidationErrors(path, config, isRfc3339, true)
  {
    ValidateWith(resp, path, config, isRfc3339, true);
  }

  method ValidateWith(resp: Response, path: string, config: Result<Value<string>>, isRfc3339: Rfc3339Check, corrected: bool)
    modifies resp
    ensures resp.state == old(resp.state)
    ensures resp.errors == old(resp.errors) + ValidationErrors(path, config, isRfc3339, corrected)
  {
    if config.Err? {
      resp.AddError(config.message);
      return;
    }
    var str := config.value;
    if corrected && str.Unknown? {
      return;
    }
    if !str.Null? {
      var s := CheckedText(str);
      if !isRfc3339(s) {
        resp.AddError(NotTimestamp(path));
      }
      if !HasSuffix(s, UtcSuffix) {
        resp.AddError(UnsupportedTimezone(path));
      }
    }
  }

  /** A known value passes exactly when it parses and ends in `+00:00`; each
      failed check reports its own error, the parse error first, so a value
      can get both; a null value passes. */
  lemma ValidatorAcceptsUtcTimestamps(path: string, s: string, isRfc3339: Rfc3339Check, corrected: bool)
    ensures var r := ValidationErrors(path, Ok(Known(s)), isRfc3339, corrected);
      (r == [] <==> isRfc3339(s) && HasSuffix(s, UtcSuffix)) &&
      (NotTimestamp(path) in r <==> !isRfc3339(s)) &&
      (UnsupportedTimezone(path) in r <==> !HasSuffix(s, UtcSuffix)) &&
      (!isRfc3339(s) && !HasSuffix(s, UtcSuffix) ==> r == [NotTimestamp(path), UnsupportedTimezone(path)])
    ensures ValidationErrors(path, Ok(Null), isRfc3339, corrected) == []
  {
    var r := ValidationErrors(path, Ok(Known(s)), isRfc3339, corrected);
    assert NotTimestamp(path) != UnsupportedTimezone(path) by {
      assert NotTimestamp(path)[|path| + 1] == 'i';
      assert UnsupportedTimezone(path)[|path| + 1] == 'h';
    }
  }

  /** A timestamp in the `Z` form is rejected for its zone, even though it
      is valid RFC 3339. */
  lemma ZuluRejected(path: string, s: string, isRfc3339: Rfc3339Check, corrected: bool)
    requires |s| > 0 && s[|s| - 1] == 'Z'
    ensures UnsupportedTimezone(path) in ValidationErrors(path, Ok(Known(s)), isRfc3339, corrected)
  {
    assert |s| < |UtcSuffix| || s[|s| - |UtcSuffix|..][5] == 'Z';
    ValidatorAcceptsUtcTimestamps(path, s, isRfc3339, corrected);
  }

  /** As written, a value that is not known yet gets both errors, since
      its text is empty; corrected, it gets none. */
  lemma UnknownValueRejected(path: string, isRfc3339: Rfc3339Check)
    requires !isRfc3339("")
    ensures ValidationErrors(path, Ok(Unknown), isRfc3339, false) == [NotTimestamp(path), UnsupportedTimezone(path)]
    ensures ValidationErrors(path, Ok(Unknown), isRfc3339, true) == []
  {
    assert !HasSuffix("", UtcSuffix);
  }
}
