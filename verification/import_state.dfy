/**
 * The shared import-ID grammar of `helpers.ImportState` and
 * `helpers.ImportStateByName`: `<identifier>` or `<identifier>,<workspace_id>`.
 */
module ImportState {
  import opened Wrappers
  import opened Text
  import opened Framework

  const UnexpectedImport := "Unexpected Import Identifier"

  /** The summary of `ParseUUIDErrorDiagnostic(resourceName, err)`. */
  function ParseUuidError(resourceName: string): string
  {
    "Error parsing " + resourceName + " ID"
  }

  /** What `importState` records for an import ID, with `identifier` the
      attribute that receives the first part. */
  function ImportOutcome(identifier: string, parseUuid: UuidParser, id: string): Outcome
  {
    var parts := Split(id, ',');
    if |parts| > 2 then Outcome(map[], Some(UnexpectedImport))
    else if |parts| == 2 && (parts[0] == "" || parts[1] == "") then Outcome(map[], Some(UnexpectedImport))
    else if |parts| == 1 then Outcome(map[identifier := parts[0]], None)
    else match parseUuid(parts[1])
      case None => Outcome(map[identifier := parts[0]], Some(ParseUuidError("Import")))
      case Some(w) => Outcome(map[identifier := parts[0]]["workspace_id" := w], None)
  }

  /** `importState`: reject more than two parts or an empty side, set the
      identifier, then parse and set the workspace ID when there is one. */
  method ImportWith(resp: Response, identifier: string, parseUuid: UuidParser, id: string)
    modifies resp
    ensures var o := ImportOutcome(identifier, parseUuid, id);
      resp.state == old(resp.state) + o.attrs && resp.errors == old(resp.errors) + ErrorsOf(o.error)
  {
    var parts := Split(id, ',');
    if |parts| > 2 {
      resp.AddError(UnexpectedImport);
      return;
    }
    if |parts| == 2 && (parts[0] == "" || parts[1] == "") {
      resp.AddError(UnexpectedImport);
      return;
    }
    resp.SetAttribute(identifier, parts[0]);
    if |parts| == 2 {
      var workspaceId := parseUuid(parts[1]);
      if workspaceId.None? {
        resp.AddError(ParseUuidError("Import"));
        return;
      }
      resp.SetAttribute("workspace_id", workspaceId.value);
    }
  }

  /** `ImportState`: the identifier is the resource ID. */
  method ImportById(resp: Response, parseUuid: UuidParser, id: string)
    modifies resp
    ensures var o := ImportOutcome("id", parseUuid, id);
      resp.state == old(resp.state) + o.attrs && resp.errors == old(resp.errors) + ErrorsOf(o.error)
  {
    ImportWith(resp, "id", parseUuid, id);
  }

  /** `ImportStateByName`: the identifier is the resource name. */
  method ImportByName(resp: Response, parseUuid: UuidParser, id: string)
    modifies resp
    ensures var o := ImportOutcome("name", parseUuid, id);
      resp.state == old(resp.state) + o.attrs && resp.errors == old(resp.errors) + ErrorsOf(o.error)
  {
    ImportWith(resp, "name", parseUuid, id);
  }

  /** More than two parts, or two parts with an empty side, is an error and
      sets no attribute at all. */
  lemma ImportRejectsMalformed(identifier: string, parseUuid: UuidParser, id: string)
    requires var parts := Split(id, ',');
      |parts| > 2 || (|parts| == 2 && (parts[0] == "" || parts[1] == ""))
    ensures ImportOutcome(identifier, parseUuid, id).attrs == map[]
    ensures ImportOutcome(identifier, parseUuid, id).error.Some?
  {
  }

  /** An ID without a comma sets just the identifier, even when it is empty. */
  lemma ImportSingle(identifier: string, parseUuid: UuidParser, name: string)
    requires ',' !in name
    ensures ImportOutcome(identifier, parseUuid, name) == Outcome(map[identifier := name], None)
  {
    SplitNoSeparator(name, ',');
  }

  /** `name,workspace` sets the identifier to `name` and, when `workspace` is a
      UUID, the workspace ID to its canonical text; a workspace that does not
      parse is an error reported after the identifier was set. */
  lemma ImportWithWorkspace(identifier: string, parseUuid: UuidParser, name: string, workspace: string)
    requires ',' !in name && ',' !in workspace && name != "" && workspace != ""
    ensures var o := ImportOutcome(identifier, parseUuid, name + "," + workspace);
      (parseUuid(workspace).Some? ==>
        o == Outcome(map[identifier := name]["workspace_id" := parseUuid(workspace).value], None)) &&
      (parseUuid(workspace).None? ==>
        o == Outcome(map[identifier := name], Some(ParseUuidError("Import"))))
  {
    TwoParts(name, workspace, ',');
  }
}
