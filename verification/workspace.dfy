/**
 * The workspace resource: its import-ID parser (`name/<name>` or the ID,
 * never split on commas), the account used by Create, and the copy of an
 * API workspace into the Terraform model.
 */
module Workspace {
  import opened Wrappers
  import opened Text
  import opened Framework

  const NamePrefix := "name/"

  /** What the workspace's `ImportState` records for an import ID. */
  function WorkspaceImportOutcome(id: string): Outcome
  {
    if HasPrefix(id, NamePrefix) then Outcome(map["name" := TrimPrefix(id, NamePrefix)], None)
    else Outcome(map["id" := id], None)
  }

  /** `WorkspaceResource.ImportState`. */
  method ImportWorkspace(resp: Response, id: string)
    modifies resp
    ensures var o := WorkspaceImportOutcome(id);
      resp.state == old(resp.state) + o.attrs && resp.errors == old(resp.errors) + ErrorsOf(o.error)
  {
    if HasPrefix(id, NamePrefix) {
      resp.SetAttribute("name", TrimPrefix(id, NamePrefix));
    } else {
      resp.SetAttribute("id", id);
    }
  }

  /** Importing never fails, sets exactly one attribute, and keeps commas:
      `name/<n>` sets the name `n`, anything else is the ID verbatim. */
  lemma WorkspaceImportForms(name: string, id: string)
    ensures WorkspaceImportOutcome(NamePrefix + name) == Outcome(map["name" := name], None)
    ensures !HasPrefix(id, NamePrefix) ==> WorkspaceImportOutcome(id) == Outcome(map["id" := id], None)
    ensures |WorkspaceImportOutcome(id).attrs| == 1 && WorkspaceImportOutcome(id).error.None?
  {
    TrimPrefixAfterPrefix(NamePrefix, name);
  }

  const AccountParseError := "Error parsing Account ID"

  /** The account ID at the head of Create: the nil UUID when the configured
      value is null or "" (an unknown value reads as ""), else the parsed
      value; a value that does not parse is an error. */
  method CreateAccountId(parseUuid: UuidParser, accountId: Value<string>) returns (r: Result<string>)
    ensures accountId.Null? || StringOf(accountId) == "" ==> r == Ok(NilUuid)
    ensures !accountId.Null? && StringOf(accountId) != "" ==>
      r == (if parseUuid(StringOf(accountId)).Some? then Ok(parseUuid(StringOf(accountId)).value) else Err(AccountParseError))
  {
    var account := NilUuid;
    if !accountId.Null? && StringOf(accountId) != "" {
      var parsed := parseUuid(StringOf(accountId));
      if parsed.None? {
        return Err(AccountParseError);
      }
      account := parsed.value;
    }
    return Ok(account);
  }

  /** An API workspace; timestamps are already formatted as RFC 3339 text and
      are absent when the API left them nil. */
  datatype ApiWorkspace = ApiWorkspace(
    id: string, created: Option<string>, updated: Option<string>,
    name: string, handle: string, description: string)

  /** The attributes `copyWorkspaceToModel` writes. */
  class WorkspaceModel {
    var id: Value<string>
    var created: Value<string>
    var updated: Value<string>
    var name: Value<string>
    var handle: Value<string>
    var description: Value<string>

    constructor ()
      ensures id == Null && created == Null && updated == Null
      ensures name == Null && handle == Null && description == Null
    {
      id, created, updated := Null, Null, Null;
      name, handle, description := Null, Null, Null;
    }

    /** `copyWorkspaceToModel`: every attribute is overwritten; a timestamp is
        null exactly when the API's is nil. */
    method CopyWorkspace(w: ApiWorkspace)
      modifies this
      ensures id == Known(w.id) && name == Known(w.name)
      ensures handle == Known(w.handle) && description == Known(w.description)
      ensures created.Null? <==> w.created.None?
      ensures updated.Null? <==> w.updated.None?
      ensures w.created.Some? ==> created == Known(w.created.value)
      ensures w.updated.Some? ==> updated == Known(w.updated.value)
    {
      id := Known(w.id);
      if w.created.None? {
        created := Null;
      } else {
        created := Known(w.created.value);
      }
      if w.updated.None? {
        updated := Null;
      } else {
        updated := Known(w.updated.value);
      }
      name := Known(w.name);
      handle := Known(w.handle);
      description := Known(w.description);
    }
  }
}
