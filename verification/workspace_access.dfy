/**
 * The workspace access resource's copy of an API access record into the
 * Terraform model, where the accessor is whichever of team, user or bot the
 * record names.
 */
module WorkspaceAccess {
  import opened Wrappers
  import opened Framework

  /** An API workspace access record: at most one accessor is normally set. */
  datatype ApiWorkspaceAccess = ApiWorkspaceAccess(
    id: string, workspaceRoleId: string, workspaceId: string,
    botId: Option<string>, userId: Option<string>, teamId: Option<string>)

  /** The accessor of a record, by precedence: team, then user, then bot. */
  function AccessorOf(a: ApiWorkspaceAccess): (r: Option<string>)
    ensures r.None? <==> a.teamId.None? && a.userId.None? && a.botId.None?
    ensures r.Some? ==> r == a.teamId || r == a.userId || r == a.botId
  {
    if a.teamId.Some? then a.teamId
    else if a.userId.Some? then a.userId
    else a.botId
  }

  /** The team wins over the user and the bot, the user over the bot. */
  lemma AccessorPrecedence(a: ApiWorkspaceAccess)
    ensures a.teamId.Some? ==> AccessorOf(a) == a.teamId
    ensures a.teamId.None? && a.userId.Some? ==> AccessorOf(a) == a.userId
    ensures a.teamId.None? && a.userId.None? ==> AccessorOf(a) == a.botId
  {
  }

  /** The attributes of the workspace access model. */
  class WorkspaceAccessModel {
    var id: Value<string>
    var workspaceRoleId: Value<string>
    var workspaceId: Value<string>
    var accessorId: Value<string>
    var accessorType: Value<string>
    var accountId: Value<string>

    constructor (accessorType: Value<string>, accountId: Value<string>)
      ensures this.accessorType == accessorType && this.accountId == accountId
      ensures id == Null && workspaceRoleId == Null && workspaceId == Null && accessorId == Null
    {
      this.accessorType := accessorType;
      this.accountId := accountId;
      id, workspaceRoleId, workspaceId, accessorId := Null, Null, Null, Null;
    }

    /** `copyWorkspaceAccessToModel`: ID, role and workspace are always
        copied; the bot, user and team IDs are assigned in that order, so the
        last one present wins; the accessor is kept when none is present, and
        the account and accessor type are never touched. */
    method CopyWorkspaceAccess(a: ApiWorkspaceAccess)
      modifies this
      ensures id == Known(a.id) && workspaceRoleId == Known(a.workspaceRoleId) && workspaceId == Known(a.workspaceId)
      ensures accessorId == (if AccessorOf(a).Some? then Known(AccessorOf(a).value) else old(accessorId))
      ensures accessorType == old(accessorType) && accountId == old(accountId)
    {
      id := Known(a.id);
      workspaceRoleId := Known(a.workspaceRoleId);
      workspaceId := Known(a.workspaceId);
      if a.botId.Some? {
        accessorId := Known(a.botId.value);
      }
      if a.userId.Some? {
        accessorId := Known(a.userId.value);
      }
      if a.teamId.Some? {
        accessorId := Known(a.teamId.value);
      }
    }
  }
}
