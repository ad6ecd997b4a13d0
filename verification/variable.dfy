/**
 * The variable resource: its import-ID parser (which also accepts
 * `name/<variable_name>`), the choice between lookup by ID and lookup by name
 * when the state is refreshed, and the upgrade of version-0 state, whose
 * value was a string, to version 1, whose value is dynamic.
 */
module Variable {
  import opened Wrappers
  import opened Text
  import opened Framework
  import opened ImportState

  const ImportError := "Error importing variable"
  const NamePrefix := "name/"

  /** What the variable's `ImportState` records for an import ID. */
  function VariableImportOutcome(parseUuid: UuidParser, id: string): Outcome
  {
    var parts := Split(id, ',');
    if |parts| > 2 then Outcome(map[], Some(ImportError))
    else
      var identifier := if HasPrefix(parts[0], NamePrefix)
        then map["name" := TrimPrefix(parts[0], NamePrefix)]
        else map["id" := parts[0]];
      if |parts| == 2 && parts[1] != "" then
        match parseUuid(parts[1])
        case None => Outcome(identifier, Some(ParseUuidError("Workspace")))
        case Some(w) => Outcome(identifier["workspace_id" := w], None)
      else Outcome(identifier, None)
  }

  /** `VariableResource.ImportState`. */
  method ImportVariable(resp: Response, parseUuid: UuidParser, id: string)
    modifies resp
    ensures var o := VariableImportOutcome(parseUuid, id);
      resp.state == old(resp.state) + o.attrs && resp.errors == old(resp.errors) + ErrorsOf(o.error)
  {
    var parts := Split(id, ',');
    if |parts| > 2 {
      resp.AddError(ImportError);
      return;
    }
    var variableIdentifier := parts[0];
    if HasPrefix(variableIdentifier, NamePrefix) {
      resp.SetAttribute("name", TrimPrefix(variableIdentifier, NamePrefix));
    } else {
      resp.SetAttribute("id", variableIdentifier);
    }
    if |parts| == 2 && parts[1] != "" {
      var workspaceId := parseUuid(parts[1]);
      if workspaceId.None? {
        resp.AddError(ParseUuidError("Workspace"));
        return;
      }
      resp.SetAttribute("workspace_id", workspaceId.value);
    }
  }

  /** `name/<name>` imports by name and sets no ID. */
  lemma VariableImportByName(parseUuid: UuidParser, name: string)
    requires ',' !in name
    ensures VariableImportOutcome(parseUuid, NamePrefix + name) == Outcome(map["name" := name], None)
  {
    assert ',' !in NamePrefix + name;
    SplitNoSeparator(NamePrefix + name, ',');
    TrimPrefixAfterPrefix(NamePrefix, name);
  }

  /** Any other first part is taken verbatim as the ID. */
  lemma VariableImportById(parseUuid: UuidParser, id: string)
    requires ',' !in id && !HasPrefix(id, NamePrefix)
    ensures VariableImportOutcome(parseUuid, id) == Outcome(map["id" := id], None)
  {
    SplitNoSeparator(id, ',');
  }

  /** An empty workspace part is tolerated: `x,` imports like `x`. */
  lemma VariableImportTrailingComma(parseUuid: UuidParser, identifier: string)
    requires ',' !in identifier
    ensures VariableImportOutcome(parseUuid, identifier + ",") == VariableImportOutcome(parseUuid, identifier)
  {
    TwoParts(identifier, "", ',');
    assert identifier + [','] + "" == identifier + ",";
    SplitNoSeparator(identifier, ',');
  }

  /** A workspace part is parsed as a UUID; a failure is reported after the
      identifier was already set. */
  lemma VariableImportWorkspace(parseUuid: UuidParser, identifier: string, workspace: string)
    requires ',' !in identifier && ',' !in workspace && workspace != ""
    ensures var o := VariableImportOutcome(parseUuid, identifier + "," + workspace);
      var plain := VariableImportOutcome(parseUuid, identifier);
      (parseUuid(workspace).Some? ==> o == Outcome(plain.attrs["workspace_id" := parseUuid(workspace).value], None)) &&
      (parseUuid(workspace).None? ==> o == Outcome(plain.attrs, Some(ParseUuidError("Workspace"))))
  {
    TwoParts(identifier, workspace, ',');
    SplitNoSeparator(identifier, ',');
  }

  /** How the refreshed variable is fetched. */
  datatype Lookup = ById(uuid: string) | ByName(name: string)

  /** The lookup choice at the head of `Read`: by ID whenever the ID is not
      null (a malformed ID is an error, whatever the name), else by name
      whenever the name is not null, else an error. */
  method ChooseLookup(parseUuid: UuidParser, id: Value<string>, name: Value<string>) returns (r: Result<Lookup>)
    ensures r.Ok? && r.value.ById? <==> !id.Null? && parseUuid(StringOf(id)).Some?
    ensures r.Ok? && r.value.ById? ==> r.value.uuid == parseUuid(StringOf(id)).value
    ensures r.Ok? && r.value.ByName? <==> id.Null? && !name.Null?
    ensures r.Ok? && r.value.ByName? ==> r.value.name == StringOf(name)
    ensures r.Err? ==> r.message == (if id.Null? then BothUnset else ParseUuidError("Variable"))
  {
    if !id.Null? {
      var uuid := parseUuid(StringOf(id));
      if uuid.None? {
        return Err(ParseUuidError("Variable"));
      }
      return Ok(ById(uuid.value));
    } else if !name.Null? {
      return Ok(ByName(StringOf(name)));
    }
    return Err(BothUnset);
  }

  const BothUnset := "Both ID and Name are unset"

  /** A dynamic value holding a string. */
  datatype Dynamic = DynamicString(s: string)

  /** Version 0 of the variable state: the value is a string. */
  datatype VariableV0 = VariableV0(
    id: Value<string>, created: Value<string>, updated: Value<string>,
    accountId: Value<string>, workspaceId: Value<string>,
    name: Value<string>, value: Value<string>, tags: Value<seq<string>>)

  /** Version 1 of the variable state: the value is dynamic. */
  datatype VariableV1 = VariableV1(
    id: Value<string>, created: Value<string>, updated: Value<string>,
    accountId: Value<string>, workspaceId: Value<string>,
    name: Value<string>, value: Value<Dynamic>, tags: Value<seq<string>>)

  /** The version 0 to 1 `StateUpgrader`: every field is copied and the value's
      string is wrapped in a dynamic value. */
  function Upgrade(v0: VariableV0): (v1: VariableV1)
    ensures v1.value.Known?
  {
    VariableV1(v0.id, v0.created, v0.updated, v0.accountId, v0.workspaceId,
               v0.name, Known(DynamicString(StringOf(v0.value))), v0.tags)
  }

  /** Reading version-1 state back in the version-0 shape. */
  function Downgrade(v1: VariableV1): VariableV0
  {
    VariableV0(v1.id, v1.created, v1.updated, v1.accountId, v1.workspaceId, v1.name,
               if v1.value.Known? then Known(v1.value.value.s) else Null, v1.tags)
  }

  /** The upgrade loses nothing for a known value; a null or unknown value
      becomes the known empty string. */
  lemma UpgradeRoundTrip(v0: VariableV0)
    ensures v0.value.Known? ==> Downgrade(Upgrade(v0)) == v0
    ensures !v0.value.Known? ==> Upgrade(v0).value == Known(DynamicString(""))
    ensures Downgrade(Upgrade(v0)).(value := v0.value) == v0
  {
  }
}
