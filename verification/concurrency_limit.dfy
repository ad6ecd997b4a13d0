/**
 * The task-run concurrency limit resource: its import-ID parser and its
 * update, which changes nothing.
 */
module ConcurrencyLimit {
  import opened Wrappers
  import opened Text
  import opened Framework
  import opened ImportState

  /** What the concurrency limit's `ImportState` records for an import ID: the
      first part is the ID even when it is empty, and an empty workspace part
      is ignored. */
  function ConcurrencyLimitImportOutcome(parseUuid: UuidParser, id: string): Outcome
  {
    var parts := Split(id, ',');
    if |parts| > 2 then Outcome(map[], Some(UnexpectedImport))
    else if |parts| == 2 && parts[1] != "" then
      match parseUuid(parts[1])
      case None => Outcome(map["id" := parts[0]], Some(ParseUuidError("Concurrency Limit")))
      case Some(w) => Outcome(map["id" := parts[0], "workspace_id" := w], None)
    else Outcome(map["id" := parts[0]], None)
  }

  /** `ConcurrencyLimitResource.ImportState`. */
  method ImportConcurrencyLimit(resp: Response, parseUuid: UuidParser, id: string)
    modifies resp
    ensures var o := ConcurrencyLimitImportOutcome(parseUuid, id);
      resp.state == old(resp.state) + o.attrs && resp.errors == old(resp.errors) + ErrorsOf(o.error)
  {
    var parts := Split(id, ',');
    if |parts| > 2 {
      resp.AddError(UnexpectedImport);
      return;
    }
    resp.SetAttribute("id", parts[0]);
    if |parts| == 2 && parts[1] != "" {
      var workspaceId := parseUuid(parts[1]);
      if workspaceId.None? {
        resp.AddError(ParseUuidError("Concurrency Limit"));
        return;
      }
      resp.SetAttribute("workspace_id", workspaceId.value);
    }
  }

  /** The empty import ID and `,workspace` both set an empty ID. */
  lemma ConcurrencyLimitEmptyId(parseUuid: UuidParser, workspace: string)
    requires ',' !in workspace && workspace != "" && parseUuid(workspace).Some?
    ensures ConcurrencyLimitImportOutcome(parseUuid, "") == Outcome(map["id" := ""], None)
    ensures ConcurrencyLimitImportOutcome(parseUuid, "," + workspace)
      == Outcome(map["id" := "", "workspace_id" := parseUuid(workspace).value], None)
  {
    SplitNoSeparator("", ',');
    TwoParts("", workspace, ',');
    assert "" + [','] + workspace == "," + workspace;
  }

  /** `ConcurrencyLimitResource.Update` does nothing. */
  method UpdateConcurrencyLimit(resp: Response)
    ensures resp.state == old(resp.state) && resp.errors == old(resp.errors)
  {
  }
}
