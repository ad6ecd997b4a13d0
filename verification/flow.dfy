/**
 * The flow resource's import-ID parser, whose two-part form puts the
 * workspace first, and its update, which changes nothing.
 */
module Flow {
  import opened Wrappers
  import opened Text
  import opened Framework
  import opened ImportState

  /** What the flow's `ImportState` records for an import ID. */
  function FlowImportOutcome(id: string): Outcome
  {
    var parts := Split(id, ',');
    if |parts| > 2 then Outcome(map[], Some(UnexpectedImport))
    else if |parts| == 2 && (parts[0] == "" || parts[1] == "") then Outcome(map[], Some(UnexpectedImport))
    else if |parts| == 2 then Outcome(map["workspace_id" := parts[0], "id" := parts[1]], None)
    else Outcome(map["name" := id], None)
  }

  /** `FlowResource.ImportState`: `workspace_id,id` sets both attributes as
      given; a single part is passed through whole as the name. */
  method ImportFlow(resp: Response, id: string)
    modifies resp
    ensures var o := FlowImportOutcome(id);
      resp.state == old(resp.state) + o.attrs && resp.errors == old(resp.errors) + ErrorsOf(o.error)
  {
    var parts := Split(id, ',');
    if |parts| > 2 {
      resp.AddError(UnexpectedImport);
      return;
    }
    if |parts| == 2 && (parts[0] == "" || parts[1] == "") {
      resp.AddError(UnexpectedImport);
      return;
    }
    if |parts| == 2 {
      resp.SetAttribute("workspace_id", parts[0]);
      resp.SetAttribute("id", parts[1]);
    } else {
      resp.SetAttribute("name", id);
    }
  }

  /** `workspace,flow` sets the flow's ID and the workspace verbatim, with no
      UUID check. */
  lemma FlowImportTwoParts(workspace: string, flow: string)
    requires ',' !in workspace && ',' !in flow && workspace != "" && flow != ""
    ensures FlowImportOutcome(workspace + "," + flow) == Outcome(map["workspace_id" := workspace, "id" := flow], None)
  {
    TwoParts(workspace, flow, ',');
  }

  /** An ID without a comma is the flow's name, even when it is empty. */
  lemma FlowImportByName(name: string)
    requires ',' !in name
    ensures FlowImportOutcome(name) == Outcome(map["name" := name], None)
  {
    SplitNoSeparator(name, ',');
  }

  /** `FlowResource.Update` is unsupported and leaves the response as it was. */
  method UpdateFlow(resp: Response)
    ensures resp.state == old(resp.state) && resp.errors == old(resp.errors)
  {
  }
}
