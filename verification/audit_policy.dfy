/**
 * The naming policy of the parity-audit scripts: how a cloud tag or a
 * registry slug is normalised, which cloud resources are never reported,
 * and which provider names stand in for a cloud resource (aliases).
 *
 * `inflection.singularize` is a foreign library; it is a parameter
 * `singularize` of every member that needs it.
 */
module AuditPolicy {
  import opened Text

  /** The exclusion list and the alias table one script works with. */
  datatype Policy = Policy(excluded: seq<string>, aliases: map<string, seq<string>>)

  /** Cloud resources the sync script never reports (it lists "flow", the markdown script does not). */
  const SyncExcluded: seq<string> := [
    "account_billing", "account_sso", "ai", "block_capability", "concurrency_limit",
    "collection", "download", "event", "flow_run_state", "flow_run", "invitation",
    "log", "me", "metric", "rate_limit", "root", "savedsearch", "schema",
    "task_run_state", "task_run", "task_worker", "ui", "workspace_invitation",
    "workspace_scope", "flow"
  ]

  /** Cloud resources the markdown script never reports. */
  const MarkdownExcluded: seq<string> := [
    "account_billing", "account_sso", "ai", "block_capability", "concurrency_limit",
    "collection", "download", "event", "flow_run_state", "flow_run", "invitation",
    "log", "me", "metric", "rate_limit", "root", "savedsearch", "schema",
    "task_run_state", "task_run", "task_worker", "ui", "workspace_invitation",
    "workspace_scope"
  ]

  /** Provider names that cover a normalised cloud resource of another name. */
  const KnownAliases: map<string, seq<string>> := map[
    "account_membership" := ["account_member"],
    "account_role" := ["account_member"],
    "block_document" := ["block"],
    "block_type" := ["block"],
    "bot" := ["service_account"],
    "concurrency_limits_v2" := ["global_concurrency_limit"],
    "notification" := ["resource_sla"],
    "sla" := ["resource_sla"],
    "workspace_bot_access" := ["workspace_access"],
    "workspace_team_access" := ["workspace_access"],
    "workspace_user_access" := ["workspace_access"]
  ]

  const SyncPolicy := Policy(SyncExcluded, KnownAliases)
  const MarkdownPolicy := Policy(MarkdownExcluded, KnownAliases)

  /** The string handed to `singularize`: spaces become `_`, then lower case. */
  function Prepare(text: string): (r: string)
    ensures |r| == |text|
    ensures ' ' !in r && IsLower(r)
    ensures forall i :: 0 <= i < |text| ==>
      r[i] == (if text[i] == ' ' then '_' else LowerChar(text[i]))
  {
    Lower(ReplaceChar(text, ' ', '_'))
  }

  /** `normalize_name`: the prepared string, singularised. */
  function NormalizeName(singularize: string -> string, text: string): string
  {
    singularize(Prepare(text))
  }

  /** The documented example "Block Capabilities" -> "block_capability", for any
      singulariser that maps "block_capabilities" to "block_capability". */
  lemma NormalizeNameExample(singularize: string -> string)
    requires singularize("block_capabilities") == "block_capability"
    ensures NormalizeName(singularize, "Block Capabilities") == "block_capability"
  {
    assert Prepare("Block Capabilities") == "block_capabilities";
  }

  /** Preparing is idempotent: a prepared string has no space and no capital. */
  lemma {:induction false} PrepareIdempotent(text: string)
    ensures Prepare(Prepare(text)) == Prepare(text)
  {
    var p := Prepare(text);
    forall i | 0 <= i < |p| ensures Prepare(p)[i] == p[i] {
      assert p[i] != ' ';
      assert !('A' <= p[i] <= 'Z');
    }
  }

  /** Normalising twice is normalising once, whenever the singulariser is
      idempotent and keeps prepared strings prepared. */
  lemma NormalizeNameIdempotent(singularize: string -> string, text: string)
    requires forall s :: Prepare(singularize(Prepare(s))) == singularize(Prepare(s))
    requires forall s :: singularize(singularize(Prepare(s))) == singularize(Prepare(s))
    ensures NormalizeName(singularize, NormalizeName(singularize, text)) == NormalizeName(singularize, text)
  {
    var n := singularize(Prepare(text));
    assert Prepare(n) == n;
  }

  /** The aliases of a resource; `[]` when the table has no entry for it. */
  function AliasesOf(policy: Policy, resource: string): seq<string>
  {
    if resource in policy.aliases then policy.aliases[resource] else []
  }

  /** `does_exist_in_list`: the resource itself, or one of its own aliases, is listed.
      Aliases of aliases are not consulted. */
  predicate ExistsInList(policy: Policy, resource: string, names: seq<string>)
  {
    resource in names || exists a :: a in AliasesOf(policy, resource) && a in names
  }

  /** The scan of `does_exist_in_list`: the direct check, then each alias in turn. */
  method DoesExistInList(policy: Policy, resource: string, names: seq<string>) returns (found: bool)
    ensures found <==> ExistsInList(policy, resource, names)
  {
    if resource in names {
      return true;
    }
    var aliases := AliasesOf(policy, resource);
    var i := 0;
    while i < |aliases|
      invariant 0 <= i <= |aliases|
      invariant forall j :: 0 <= j < i ==> aliases[j] !in names
    {
      if aliases[i] in names {
        return true;
      }
      i := i + 1;
    }
    return false;
  }

  /** A resource without an alias entry exists exactly when it is listed itself. */
  lemma ExistsWithoutAlias(policy: Policy, resource: string, names: seq<string>)
    requires resource !in policy.aliases
    ensures ExistsInList(policy, resource, names) <==> resource in names
  {
  }

  /** Aliases are not transitive: with `a -> [b]` and `b -> [c]`, `a` is not
      covered by a list holding only `c`, although `b` is. */
  lemma AliasesNotTransitive()
    ensures var p := Policy([], map["a" := ["b"], "b" := ["c"]]);
      ExistsInList(p, "b", ["c"]) && !ExistsInList(p, "a", ["c"])
  {
    var p := Policy([], map["a" := ["b"], "b" := ["c"]]);
    assert AliasesOf(p, "b") == ["c"];
    assert "c" in AliasesOf(p, "b") && "c" in ["c"];
    assert AliasesOf(p, "a") == ["b"];
    assert "b" != "c";
  }

  /** With the shipped table, a bot is covered by the service-account resource. */
  lemma BotCoveredByServiceAccount()
    ensures ExistsInList(SyncPolicy, "bot", ["service_account"])
    ensures !("bot" in ["service_account"])
  {
    assert AliasesOf(SyncPolicy, "bot") == ["service_account"];
    assert "service_account" in AliasesOf(SyncPolicy, "bot");
  }

  /** "flow" is excluded by the sync script only. */
  lemma FlowExcludedOnlyBySync()
    ensures "flow" in SyncPolicy.excluded
    ensures "flow" !in MarkdownPolicy.excluded
  {
    assert SyncExcluded[24] == "flow";
  }
}
