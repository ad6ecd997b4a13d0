# Prefect Terraform provider: parity audit and pure helpers, in Dafny

This project models two parts of the Prefect Terraform provider repository.

**The parity audit.** Three Python scripts and one Go script compare the
resources the Prefect Cloud API offers with those the provider implements:

- `normalize_name` (`AuditPolicy`) puts a cloud tag or registry slug into
  one naming scheme.
- The exclusion list and the alias table (`AuditPolicy`) say which cloud
  resources are never reported and which provider names cover another
  resource.
- The two inventories are collected from already-parsed payloads
  (`AuditInventory`).
- `find_diffs` turns them into an ordered status report, and the markdown
  script renders one row per entry (`AuditDiffs`).
- `sync_github_issues` closes, edits and creates tracking issues on an
  abstract issue tracker (`IssueSync`).
- `compare.go` reports the API resources with no related Terraform
  resource (`CompareGo`).

**The provider's pure helpers.** These are:

- the import-ID grammars of the resources and of the shared import helpers;
- the client's URL builders, retry decision table, option handling and
  request headers;
- the two JSON union codecs;
- the service-account API-key reconciliation;
- the schedule lookup;
- endpoint, API-key and account resolution in `Configure`;
- profile selection;
- the two wait-until-stable loops;
- plan descriptions;
- the `+00:00` timestamp validator;
- the test helpers' dotted paths.

Code that changes state step by step is modelled as methods with loops and
invariants. Each method is proved against a specification function, and
the properties are proved about those functions. The Terraform framework's
state and diagnostics are a small `Framework.Response` class. Foreign
libraries are function-typed parameters:

- `inflection.singularize`, `uuid.Parse`, `url.Parse`, `time.Parse`;
- `IsCloudEndpoint`;
- the HTTP calls (create, delete, fetch);
- the file system and the TOML decoder.

All three audit scripts define the same `normalize_name`,
`does_exist_in_list` (sync and markdown) and slug loop. Each is modelled
once and cited at one of its copies.

## Model

| member | source | states |
|---|---|---|
| AuditPolicy.Prepare | scripts/compare-and-sync-issues.py:125 | the text before singularising has the input's length; each space becomes `_` and every other character is lower-cased, so no space or capital is left |
| AuditPolicy.NormalizeNameExample | scripts/compare-and-sync-issues.py:118-125 | "Block Capabilities" normalises to "block_capability" for any singulariser that maps "block_capabilities" to "block_capability" |
| AuditPolicy.PrepareIdempotent | scripts/compare-and-sync-issues.py:125 | replacing spaces and lower-casing a second time changes nothing |
| AuditPolicy.NormalizeNameIdempotent | scripts/compare.py:52-59 | normalising a normalised name gives it back, whenever the singulariser is idempotent and keeps prepared text prepared |
| AuditPolicy.DoesExistInList | scripts/compare-and-sync-issues.py:156-171 | true exactly when the resource is in the list or one of its own alias entries (none when the table has no key for it) is in the list |
| AuditPolicy.ExistsWithoutAlias | scripts/compare-and-sync-issues.py:164-169 | a resource with no alias entry exists exactly when it is listed itself |
| AuditPolicy.AliasesNotTransitive | scripts/compare-and-sync-issues.py:167-169 | with `a -> [b]` and `b -> [c]`, `b` is covered by `[c]` but `a` is not: aliases of aliases are not followed |
| AuditPolicy.BotCoveredByServiceAccount | scripts/compare-and-sync-issues.py:30 | with the shipped table, "bot" is covered by a list holding only "service_account" |
| AuditPolicy.FlowExcludedOnlyBySync | scripts/compare-and-output-markdown.py:18-43 | "flow" is on the sync script's exclusion list and not on the markdown script's |
| AuditInventory.SlugsOfMembers | scripts/compare-and-sync-issues.py:105-110 | a name is in a category's list exactly when some item of that category has a slug that normalises to it |
| AuditInventory.CollectSlugs | scripts/compare.py:41-49 | the slug loop gives, per category, the normalised slugs of the items of that category that have a slug, in item order |
| AuditInventory.ProviderSlugs | scripts/compare-and-sync-issues.py:104-115 | each category's list is sorted and is a permutation of the collected slugs |
| AuditInventory.InsertAll | scripts/compare-and-sync-issues.py:149-152 | adding a method's tags to the set of tags gives a strictly sorted listing whose elements are the old ones plus the new tags |
| AuditInventory.NormalizedTags | scripts/compare-and-sync-issues.py:153 | one entry per distinct raw tag |
| AuditInventory.CloudTags | scripts/compare-and-sync-issues.py:149-153 | the tags of every path and method are collected, deduplicated and sorted raw, then each is normalised |
| AuditInventory.NormalizedTagsKeepCollisions | scripts/compare-and-sync-issues.py:153 | two different raw tags that normalise to the same name give two equal entries, because deduplication happens before normalisation |
| AuditInventory.NormalizedTagsCover | scripts/compare-and-sync-issues.py:149-153 | every raw tag appears, normalised, in the result |
| AuditDiffs.Put | scripts/compare-and-sync-issues.py:205-208 | dictionary assignment maps the key to the value and keeps every key listed once, in insertion order |
| AuditDiffs.Diffs | scripts/compare-and-sync-issues.py:185-213 | the report lists each key once and lists exactly the mapped keys |
| AuditDiffs.FindDiffs | scripts/compare-and-sync-issues.py:174-213 | the loop builds exactly the report `Diffs` describes |
| AuditDiffs.KeptMembers | scripts/compare-and-sync-issues.py:186-188 | a tag survives the exclusion filter exactly when it is not excluded |
| AuditDiffs.DiffsContents | scripts/compare-and-sync-issues.py:186-208 | the report's keys are the non-excluded tags in order of first appearance; each maps to its alias-aware resource and data-source flags |
| AuditDiffs.NeverReportsExcluded | scripts/compare-and-sync-issues.py:186-188 | an excluded resource is never a key, whatever the inventories hold |
| AuditDiffs.ReportsEveryKeptTag | scripts/compare-and-sync-issues.py:190-208 | every non-excluded tag is a key and carries both flags |
| AuditDiffs.DiffsIgnoresRepeats | scripts/compare-and-sync-issues.py:205-208 | a repeated tag changes nothing: duplicate tags collapse to one key |
| AuditDiffs.DiffsExample | scripts/compare-and-output-markdown.py:172-188 | the docstring example: `artifacts` has a resource but no data source, `automations` has both, in that order |
| AuditDiffs.WikiRows | scripts/compare-and-output-markdown.py:216-228 | one row per report entry in dictionary order; each cell is a check mark exactly when its flag is true |
| AuditDiffs.DirectRows | scripts/compare.py:100-107 | one row per tag, with no exclusion and no deduplication; a cell is a check mark exactly when the tag itself is in that list |
| AuditDiffs.DirectImpliesAliasAware | scripts/compare.py:104-105 | under any policy, a direct match is also an alias-aware match |
| AuditDiffs.FlowReportedOnlyByMarkdown | scripts/compare-and-output-markdown.py:18-43 | a "flow" tag is reported by the markdown script and never by the sync script |
| IssueSync.IssueTracker.Close | scripts/compare-and-sync-issues.py:238 | closing changes only that issue's state, to closed with the given reason |
| IssueSync.IssueTracker.EditBody | scripts/compare-and-sync-issues.py:262 | a body edit changes only that issue's body |
| IssueSync.IssueTracker.Create | scripts/compare-and-sync-issues.py:266-270 | a new open issue with the title, body and labels is appended |
| IssueSync.SnapshotTails | scripts/compare-and-sync-issues.py:232 | each fetched issue's title with the "Feature Request: " prefix removed, in fetch order |
| IssueSync.CloseResolved | scripts/compare-and-sync-issues.py:231-247 | the closing loop leaves the tracker as `AfterClosing` describes |
| IssueSync.UpsertAsWritten | scripts/compare-and-sync-issues.py:250-270 | the upsert loop as written, with the body edit going to the closing loop's leftover issue |
| IssueSync.UpsertCorrected | scripts/compare-and-sync-issues.py:250-270 | the upsert loop with the body edit going to the issues that ask for the resource |
| IssueSync.SyncGithubIssues | scripts/compare-and-sync-issues.py:216-270 | the whole run as written: the closing loop, then the upsert loop over the report's keys in order |
| IssueSync.SyncGithubIssuesCorrected | scripts/compare-and-sync-issues.py:216-270 | the whole run with the corrected upsert loop |
| IssueSync.AfterClosingAt | scripts/compare-and-sync-issues.py:231-247 | the closing loop changes only states; a fetched issue takes the state its verdict gives; an issue outside the fetch keeps its state |
| IssueSync.EditMatchingAt | scripts/compare-and-sync-issues.py:258-262 | editing the matching issues sets the body of every fetched issue that asks for the resource, and changes nothing else |
| IssueSync.UpsertKeeps | scripts/compare-and-sync-issues.py:250-270 | the upsert loop never changes an existing issue's title, state or labels |
| IssueSync.UpsertCreates | scripts/compare-and-sync-issues.py:264-270 | a pending resource that no fetched issue asks for gets a new open issue with the prefixed title and the parity-audit label |
| IssueSync.UpsertCreatesNothing | scripts/compare-and-sync-issues.py:258-270 | when every pending resource has a fetched issue, no issue is created |
| IssueSync.SyncCloses | scripts/compare-and-sync-issues.py:231-247 | a fetched issue asking for an excluded resource ends not-planned; one asking for a fully implemented resource ends completed; any other keeps its state |
| IssueSync.RerunCreatesNothing | scripts/compare-and-sync-issues.py:249-270 | a second run on a fresh query creates no issue |
| IssueSync.UpsertCorrectedBodies | scripts/compare-and-sync-issues.py:258-262 | corrected, every fetched issue asking for a pending resource gets that resource's status body |
| IssueSync.SyncCorrectedBodies | scripts/compare-and-sync-issues.py:255-262 | corrected, after a whole run the issue for every pending resource carries ``Implementation Status: `<json>` `` for its current status |
| IssueSync.SyncAsWrittenEditsWrongIssue | scripts/compare-and-sync-issues.py:258-262 | as written, with issues for `x` (pending) and `y` (implemented), `x`'s status is written into the closed issue for `y` and `x`'s issue keeps its stale body; corrected, `x`'s issue is updated |
| CompareGo.GetNonImplementedAPIs | scripts/compare.go:86-117 | the loop with the `found` flag returns exactly `NonImplemented` |
| CompareGo.NonImplementedMembers | scripts/compare.go:92-114 | a resource is reported exactly when it is an input, has a relation entry, and none of its related names is a Terraform resource |
| CompareGo.NonImplementedIsSubsequence | scripts/compare.go:86-116 | the output is a subsequence of the input and keeps its order |
| CompareGo.EmptyRelationsAlwaysReported | scripts/compare.go:24-45 | artifacts, collections, events and slas are reported whatever Terraform implements |
| CompareGo.UnrelatedNeverReported | scripts/compare.go:92-101 | a resource with no relation entry is never reported |
| CompareGo.CleanFirstSegment | scripts/compare.go:164-173 | an unscoped `/name` or `/name/...` is cleaned to `name` |
| CompareGo.CleanScopedPath | scripts/compare.go:165-169 | a workspace-scoped `<scope>/name/...` is cleaned to `name` |
| CompareGo.CleanWithoutSlash | scripts/compare.go:167-172 | a string without `/` is returned unchanged |
| CompareGo.Compact | scripts/compare.go:178 | compacting a sorted list gives a strictly sorted list with the same elements |
| CompareGo.Dedupe | scripts/compare.go:175-179 | sorting then compacting gives the sorted, duplicate-free listing of the input's elements |
| CompareGo.GetTerraformResources | scripts/compare.go:121-143 | a failed directory read gives no names; otherwise test files are skipped and ".go" is removed from each remaining name |
| CompareGo.TerraformNamesOfFile | scripts/compare.go:132-140 | a source file `name.go` adds `name`, in order |
| CompareGo.GetAPIResources | scripts/compare.go:145-162 | the result is the sorted, duplicate-free set of non-empty cleaned path keys, independent of map order, and never holds "" |
| Framework.PointerOf | internal/provider/resources/work_queue.go:187-189 | a null value gives no pointer; a known value gives a pointer to itself |
| Framework.ErrorsOf | internal/provider/helpers/import_state.go:19-22 | an operation adds exactly one error summary when it reports an error and none otherwise |
| Framework.Response.SetAttribute | internal/provider/helpers/import_state.go:38 | setting an attribute maps its name to the value and leaves the diagnostics alone |
| Framework.Response.AddError | internal/provider/helpers/import_state.go:19-22 | an error diagnostic is appended and the state is left alone |
| ImportState.ImportWith | internal/provider/helpers/import_state.go:13-51 | the response gains exactly the attributes and the error that the import-ID grammar gives for the ID |
| ImportState.ImportById | internal/provider/helpers/import_state.go:60-62 | the same grammar, with the first part going to `id` |
| ImportState.ImportByName | internal/provider/helpers/import_state.go:71-73 | the same grammar, with the first part going to `name` |
| ImportState.ImportRejectsMalformed | internal/provider/helpers/import_state.go:18-35 | more than two parts, or two parts with an empty side, is an error that sets no attribute |
| ImportState.ImportSingle | internal/provider/helpers/import_state.go:38 | an ID without a comma sets only the identifier, even an empty one, with no error |
| ImportState.ImportWithWorkspace | internal/provider/helpers/import_state.go:38-50 | `name,workspace` sets the identifier; a workspace that is a UUID also sets `workspace_id` to its canonical text; one that is not is an error, and the identifier stays set |
| ImportFamily.BlockAgreesWithConcurrencyLimit | internal/provider/resources/block.go:464-488 | the block and concurrency-limit parsers accept and reject the same IDs and set the same attributes |
| ImportFamily.VariableAgreesWithBlock | internal/provider/resources/variable.go:529-559 | a variable ID whose first part does not start with `name/` is accepted exactly when the block parser accepts it, with the same attributes |
| ImportFamily.SharedImportStricterThanBlock | internal/provider/helpers/import_state.go:27-35 | whatever the shared helper accepts, the block parser accepts with the same result; a trailing comma is accepted by the block parser only |
| ImportFamily.FlowReversesSharedImport | internal/provider/resources/flow.go:342-347 | a flow's `workspace,flow` sets what the shared helper sets for `flow,workspace` |
| Deployment.ImportDeployment | internal/provider/resources/deployment.go:682-718 | the response gains exactly the attributes and the error that the deployment's import grammar gives |
| Deployment.DeploymentImportIsSharedImport | internal/provider/resources/deployment.go:682-718 | the deployment parser accepts and rejects what the shared helper does and sets the same attributes; only the UUID error's wording differs |
| Deployment.UnescapedValue | internal/provider/resources/deployment.go:727-741 | a missing key gives the fixed marker "problemescaping" |
| Deployment.UnescapedQuoted | internal/provider/resources/deployment.go:732 | a value rendered as `"s"`, with no quote inside, gives back `s` |
| Deployment.UnescapedInnerQuote | internal/provider/resources/deployment.go:735 | an escaped quote inside the value becomes a plain quote |
| Deployment.DeploymentModel.CopyConcurrency | internal/provider/resources/deployment.go:312-330 | the model's limit and collision strategy become what `CopiedConcurrency` gives |
| Deployment.CopiedConcurrency | internal/provider/resources/deployment.go:312-330 | each concurrency option is overwritten when the API object carries it and kept when its pointer is nil |
| Deployment.CopyConcurrencyIdempotent | internal/provider/resources/deployment.go:312-330 | copying twice is copying once; an API object carrying both fields fixes the result whatever the model held |
| Variable.ImportVariable | internal/provider/resources/variable.go:529-559 | the response gains exactly the attributes and the error that the variable's import grammar gives |
| Variable.VariableImportByName | internal/provider/resources/variable.go:543-545 | `name/<n>` sets the name `n` |
| Variable.VariableImportById | internal/provider/resources/variable.go:546-548 | an ID without the `name/` prefix is set as the ID verbatim |
| Variable.VariableImportTrailingComma | internal/provider/resources/variable.go:550 | a trailing comma changes nothing: an empty workspace part is ignored |
| Variable.VariableImportWorkspace | internal/provider/resources/variable.go:550-558 | a workspace part that is a UUID adds `workspace_id`; one that is not is an error reported after the identifier was set |
| Variable.ChooseLookup | internal/provider/resources/variable.go:386-405 | the variable is read by ID whenever the ID is not null (a malformed ID is an error), else by name whenever the name is not null, else an error |
| Variable.Upgrade | internal/provider/resources/variable.go:220-235 | the upgraded value is always known |
| Variable.UpgradeRoundTrip | internal/provider/resources/variable.go:220-235 | the upgrade changes only the value: a known string is wrapped and can be read back; a null or unknown value becomes the known empty string |
| Flow.ImportFlow | internal/provider/resources/flow.go:315-351 | the response gains exactly the attributes and the error that the flow's import grammar gives |
| Flow.FlowImportTwoParts | internal/provider/resources/flow.go:342-347 | `workspace,flow` sets the workspace and the ID verbatim, with no UUID check |
| Flow.FlowImportByName | internal/provider/resources/flow.go:348-350 | a single part is passed through whole as the name |
| Flow.UpdateFlow | internal/provider/resources/flow.go:266-268 | updating a flow changes neither state nor diagnostics |
| WorkQueue.ImportWorkQueue | internal/provider/resources/work_queue.go:337-360 | the response gains exactly the attributes and the error that the work queue's import grammar gives |
| WorkQueue.WorkQueueImportRoundTrip | internal/provider/resources/work_queue.go:345-352 | `pool,queue` and `pool,queue,workspace` import back to their parts; the workspace is taken verbatim |
| WorkQueue.WorkQueueImportPartCount | internal/provider/resources/work_queue.go:345-359 | an ID is accepted exactly when it has two or three comma-separated parts |
| WorkQueue.CreateRequest | internal/provider/resources/work_queue.go:185-194 | the create payload carries the plan's fields, and the priority only when it is not 0 |
| WorkQueue.UpdateRequest | internal/provider/resources/work_queue.go:270-283 | the update payload sends "" for a null description and the priority whenever it is not null |
| WorkQueue.PayloadsCompared | internal/provider/resources/work_queue.go:192-194 | Update always sends a description, and the two payloads differ exactly on a zero priority: Create omits it, Update sends it |
| AccountMember.ImportAccountMember | internal/provider/resources/account_member.go:271-288 | the response gains exactly the attributes and the error that the account member's import grammar gives |
| AccountMember.AccountMemberImportForms | internal/provider/resources/account_member.go:284-287 | both `account,email/address` and `account,address` import the address |
| AccountMember.AccountMemberImportNeedsTwoParts | internal/provider/resources/account_member.go:275-282 | an ID is accepted exactly when it has two parts; a rejected ID sets nothing |
| AccountMember.SingleMatch | internal/provider/resources/account_member.go:177-186 | the refresh succeeds exactly when the listing holds one member, which it then uses |
| AccountMember.CreateAccountMember | internal/provider/resources/account_member.go:145-147 | creating reports "Not implemented" and sets no state |
| Block.ImportBlock | internal/provider/resources/block.go:464-488 | the response gains exactly the attributes and the error that the block's import grammar gives |
| Block.BlockImportForms | internal/provider/resources/block.go:477-479 | the first part is the ID whatever it is, and a trailing comma is ignored |
| Block.GetLatestBlockSchema | internal/provider/resources/block.go:198-225 | the retry loop returns exactly what `LatestSchema` describes |
| Block.SchemaSearchUsesThreeAttempts | internal/provider/resources/block.go:198 | only the first three listings can affect the result |
| Block.SchemaSearchFinds | internal/provider/resources/block.go:206-210 | a found schema heads some attempt's listing, and every earlier attempt listed nothing |
| Block.ThreeEmptyListings | internal/provider/resources/block.go:217-222 | three empty listings give the "No block schemas found" error |
| Block.LatestSchemaProperties | internal/provider/resources/block.go:198-225 | a returned schema is never the nil schema, heads one of the first three listings after only empty ones, and depends on those three only |
| ConcurrencyLimit.ImportConcurrencyLimit | internal/provider/resources/concurrency_limit.go:235-263 | the response gains exactly the attributes and the error that the concurrency limit's import grammar gives |
| ConcurrencyLimit.ConcurrencyLimitEmptyId | internal/provider/resources/concurrency_limit.go:251-252 | the empty ID and `,workspace` are accepted and set an empty ID |
| ConcurrencyLimit.UpdateConcurrencyLimit | internal/provider/resources/concurrency_limit.go:231-232 | updating changes neither state nor diagnostics |
| Workspace.ImportWorkspace | internal/provider/resources/workspace.go:369-376 | the response gains exactly the attribute that the workspace's import rule gives |
| Workspace.WorkspaceImportForms | internal/provider/resources/workspace.go:370-375 | `name/<n>` sets the name `n`, anything else is the ID verbatim, and no ID is ever rejected |
| Workspace.CreateAccountId | internal/provider/resources/workspace.go:148-161 | a null or empty account ID is the nil UUID; any other must parse, else the result is an error |
| Workspace.WorkspaceModel.CopyWorkspace | internal/provider/resources/workspace.go:116-136 | the model takes the API object's fields; a timestamp is null exactly when the API's is nil |
| WorkspaceAccess.AccessorOf | internal/provider/resources/workspace_access.go:128-136 | there is an accessor exactly when one of the three IDs is present, and it is one of them |
| WorkspaceAccess.AccessorPrecedence | internal/provider/resources/workspace_access.go:128-136 | the team ID wins over the user ID, and the user ID over the bot ID |
| WorkspaceAccess.WorkspaceAccessModel.CopyWorkspaceAccess | internal/provider/resources/workspace_access.go:123-137 | the IDs are copied, the accessor becomes the winning ID or stays as it was when none is present, and nothing else changes |
| DeploymentSchedule.GetScheduleById | internal/provider/resources/deployment_schedule.go:463-471 | a schedule is found exactly when some schedule has the ID, and it is the first one that does; otherwise the error names the ID |
| DeploymentSchedule.FirstWithIdUnique | internal/provider/resources/deployment_schedule.go:464-468 | the first schedule with an ID is unique |
| DeploymentSchedule.ValidateSchedules | internal/provider/resources/deployment_schedule.go:451-460 | an error exactly when the list is empty |
| DeploymentSchedule.ScheduleModel.CopySchedule | internal/provider/resources/deployment_schedule.go:416-445 | the model takes the schedule's fields; the parameters are null for an empty map, the encoded JSON otherwise, and are kept when the encoding fails |
| DeploymentSchedule.CreateFromResponse | internal/provider/resources/deployment_schedule.go:253-264 | an empty list is an error and leaves the model alone; otherwise the model holds the first schedule's fields, with the parameters set as in `CopySchedule` |
| Client.CheckRetryPolicy | internal/client/client.go:171-220 | no response: retry, passing the error on; 409: stop with no error; 403: stop with the status error; 404: the status error, retried except under DELETE; anything else: the library's policy |
| Client.RetryPolicyGivesUp | internal/client/client.go:171-220 | the client stops retrying exactly on a conflict, a forbidden request, a missing object under DELETE, or when the library's policy says so; 403 and 404 always carry a status error |
| Client.OptionErrorOf | internal/client/client.go:104-169 | the key options never fail; an endpoint with a trailing slash fails; the defaults fail exactly when a workspace is set without an account; a disabled CSRF option never fails |
| Client.Applied | internal/client/client.go:104-169 | an option that fails leaves the client's settings as they were, except the CSRF client token that an enabled CSRF option sets before its token request |
| Client.ErrorsOf | internal/client/client.go:48-55 | at most one error per option |
| Client.Client.Apply | internal/client/client.go:50 | applying an option reports that option's error and leaves the settings as `Applied` gives |
| Client.New | internal/client/client.go:48-61 | every option is applied in order and every error collected; there is a client exactly when no option failed, and then it holds the settings the options give |
| Client.NewFailsIffSomeOptionFails | internal/client/client.go:57-59 | `New` fails exactly when some option fails |
| Client.TrailingSlashRejected | internal/client/client.go:113-115 | an endpoint with a trailing slash makes `New` fail whatever the other options are |
| Client.LastApiKeyWins | internal/client/client.go:125-131 | of two API-key options, the second one is the key the client keeps |
| Requests.GetAccountScopedUrl | internal/client/util.go:25-37 | the builder writes `<endpoint>/accounts/<account>/<route>` |
| Requests.GetWorkspaceScopedUrl | internal/client/util.go:40-57 | the builder writes the workspace-scoped URL, or `<endpoint>/<route>` when the account or the workspace is unset |
| Requests.ScopedUrlsFrameRoute | internal/client/util.go:25-57 | both URLs start with the endpoint and end with `/` and the route |
| Requests.WorkspaceScopedIsAccountScoped | internal/client/util.go:45-51 | with both IDs set, the workspace-scoped URL is the account-scoped URL of `workspaces/<id>/<route>`; with either unset, the route hangs off the endpoint |
| Requests.ValidateCloudEndpoint | internal/client/util.go:97-103 | an error exactly for a Cloud endpoint with the account or the workspace unset |
| Requests.CloudEndpointNeedsScopedUrl | internal/client/util.go:97-103 | for a Cloud endpoint, validation passes exactly when the URL is workspace-scoped under the account |
| Requests.Request.SetAuthorizationHeader | internal/client/util.go:61-70 | the Authorization header is set to the value the keys give, or left alone when both keys are empty |
| Requests.Request.SetDefaultHeaders | internal/client/util.go:74-93 | the request's headers become the default headers, overridden by the custom headers |
| Requests.Request.ApplyCustomHeaders | internal/client/util.go:90-92 | every custom header is set, overriding any earlier value |
| Requests.DefaultHeadersPrecedence | internal/client/util.go:61-93 | custom headers win; Content-Type is JSON unless overridden; CSRF headers appear exactly when their tokens are set; Basic wins over Bearer; with no key, no Authorization header is added |
| Requests.CheckStatus | internal/client/util.go:175-179 | the request succeeds exactly when the status is one of the success codes, and otherwise fails with the status and the body |
| Requests.SuccessCodeUnions | internal/client/util.go:133-139 | the combined success-code lists accept exactly the union of the single ones |
| Ordering.SortStrings | scripts/compare.go:176 | the result is sorted and a permutation of the input |
| Ordering.StrictlySortedUnique | scripts/compare.go:175-179 | two strictly sorted listings of the same elements are equal |
| Json.DecodeStrings | internal/api/automations.go:118-119 | decoding into a string slice accepts null (the nil slice) or an array of strings and nulls, one string per element, and refuses a string or any other value |
| Json.DecodeItems | internal/api/automations.go:118-119 | the elements decode exactly when each is a string or null; a null element is "" |
| Json.EncodeStrings | internal/api/automations.go:98 | a nil slice encodes as null, any other as an array of the same length |
| Json.DecodeEncodeStrings | internal/api/automations.go:98-119 | decoding an encoded string slice gives it back, the nil slice included |
| Json.EncodeDecodeStrings | internal/api/automations.go:98-119 | an array of strings decodes and encodes back to itself |
| Automations.Marshal | internal/api/automations.go:91-104 | a list-flagged value encodes its list, any other its string |
| Automations.Unmarshal | internal/api/automations.go:107-127 | a string (or null, read as "") is taken as the string; otherwise a list of strings is taken as the list; anything else is the "must be string or string array" error; only the fields of the successful reading change |
| Automations.MarshalUnmarshal | internal/api/automations.go:91-127 | a string or an array of strings decodes and encodes back to itself |
| Automations.UnmarshalMarshal | internal/api/automations.go:91-127 | encoding then decoding gives the value back, except that a list flag over a nil list comes back as the empty string |
| Automations.DecodeExamples | internal/api/automations.go:107-127 | `"flow-123"` decodes as a string and `["flow-123","flow-456"]` as a list |
| BlockDocuments.Marshal | internal/api/block_documents.go:66-82 | the wildcard encodes as `["*"]`, anything else as its ID list |
| BlockDocuments.DecodeUuids | internal/api/block_documents.go:88-89 | a decoded UUID array has one ID per element |
| BlockDocuments.DecodeUuidItems | internal/api/block_documents.go:88-89 | the elements decode exactly into one canonical UUID each |
| BlockDocuments.Unmarshal | internal/api/block_documents.go:87-105 | a UUID list is taken as the IDs with the flag cleared; the result is the wildcard only for exactly `["*"]`, and then it has no IDs |
| BlockDocuments.DecodeEncodedUuids | internal/api/block_documents.go:76-89 | canonical UUIDs encode and decode back to themselves |
| BlockDocuments.WildcardRoundTrip | internal/api/block_documents.go:67-101 | the wildcard encodes as `["*"]`, which decodes back to the wildcard |
| BlockDocuments.UnmarshalMarshal | internal/api/block_documents.go:66-105 | an ID list of canonical UUIDs round-trips; a wildcard round-trips but loses any IDs it carried |
| Provider.ConfigOrEnv | internal/provider/provider.go:152-157 | a setting that is not null wins (an unknown one reads as ""); a null one falls back to the environment variable, else "" |
| Provider.WithApiSuffix | internal/provider/provider.go:130-132 | the result ends in `/api`; an endpoint that already does is kept, any other gets `/api` appended |
| Provider.ResolvedEndpointProperties | internal/provider/provider.go:120-132 | the endpoint always ends in `/api` and never in `/`; with neither the setting nor `PREFECT_API_URL` it is the Cloud API; a set endpoint without the suffix gets it |
| Provider.ResolvedAccount | internal/provider/provider.go:161-173 | a non-null setting wins; otherwise the account is whatever `uuid.Parse` returns for `PREFECT_CLOUD_ACCOUNT_ID`, even after an error, and the nil UUID when the variable is unset; the invalid-account warning is raised exactly when the setting is null and the variable is set to text that does not parse |
| Provider.PartialAccountIdKept | internal/provider/provider.go:161-190 | an account variable that fails to parse but decodes to a non-nil UUID gives the invalid-account warning, no missing-account warning, and the client that ID |
| Provider.ErrorsOfThree | internal/provider/provider.go:210-214 | the three client options succeed together exactly when each does |
| Provider.AppliedAllThree | internal/provider/provider.go:210-214 | applying the three options is applying them one after another |
| Provider.ClientOptionsOutcome | internal/provider/provider.go:210-223 | `client.New` fails exactly on an endpoint that does not parse or ends in a slash, or on a workspace ID without an account ID; otherwise it sets exactly the endpoint, host, key and IDs |
| Provider.NewClientWith | internal/provider/provider.go:210-214 | building the client gives the settings the options give, or nothing when one fails |
| Provider.Configure | internal/provider/provider.go:76-231 | the response records the errors, warnings and client that `Configured` gives for the configuration and the environment, and whether it panics |
| Provider.ConfigureCorrected | internal/provider/provider.go:134-142 | the same, with an endpoint that does not parse stopping `Configure` instead of being dereferenced |
| Provider.ResolveApiKey | internal/provider/provider.go:152-157 | the API key is the setting, else `PREFECT_API_KEY`, else "" |
| Provider.ResolveAccount | internal/provider/provider.go:161-173 | the account ID and the warning flag are as `ResolvedAccount` describes |
| Provider.ConfigureParsed | internal/provider/provider.go:151-230 | after the endpoint has parsed, the response records what `ConfiguredParsed` gives |
| Provider.ConfigurePanicsOnUnparsableEndpoint | internal/provider/provider.go:134-142 | as written, once the known-value checks pass, an endpoint that does not parse always panics |
| Provider.ConfigureCorrectedNeverPanics | internal/provider/provider.go:134-142 | corrected, `Configure` never panics, and an unparsable endpoint gives exactly the endpoint error |
| Provider.CloudChecks | internal/provider/provider.go:175-197 | for a Cloud host, an empty API key is the only error and no client is made; a missing account ID is only a warning; an unparsable account variable is a warning, never an error |
| Provider.ParsedClient | internal/provider/provider.go:199-228 | after a good endpoint, a client exists exactly when no error was reported, and it holds the settled endpoint, key and IDs; the client error arises only from a workspace ID without an account ID |
| Provider.ConfiguredClient | internal/provider/provider.go:199-228 | a client exists exactly when no error was reported; it holds the resolved endpoint, API key and IDs; the client error arises only from a workspace ID without an account ID |
| Profile.AuthOf | internal/provider/profile.go:70-93 | each setting is present exactly when its key is; `PREFECT_API_AUTH_STRING` wins over `PREFECT_BASIC_AUTH_KEY`; CSRF is on only for the exact text "true" |
| Profile.Selected | internal/provider/profile.go:51-67 | a named profile wins over the active one; with neither there is no profile; a picked profile that is missing is an error naming it |
| Profile.LoadProfileAuth | internal/provider/profile.go:25-94 | loading gives exactly what `Loaded` describes |
| Profile.MissingFileGivesEmpty | internal/provider/profile.go:38-42 | a profiles file that does not exist gives empty settings, whatever profile was asked for |
| Profile.LoadedFromFile | internal/provider/profile.go:50-93 | a decoded file gives the named profile's settings, else the active one's, else empty settings; a missing pick is the matching error |
| Profile.AuthOfKeys | internal/provider/profile.go:84-87 | a profile with none of the five keys gives empty settings; with both basic-auth keys, the newer one wins |
| Stabilization.FirstStable | internal/provider/helpers/stabilization.go:59-79 | the first attempt, among the ten, that is stable; none when no attempt is |
| Stabilization.FirstStableIs | internal/provider/helpers/stabilization.go:59-79 | an attempt that is stable, with no stable attempt before it, is the first stable one |
| Stabilization.AttemptError | internal/provider/helpers/stabilization.go:60-74 | an attempt reports no error only when its fetch succeeded |
| Stabilization.Fetches | internal/provider/helpers/stabilization.go:76 | the helper fetches at least once and at most ten times |
| Stabilization.WaitForResourceStabilization | internal/provider/helpers/stabilization.go:51-94 | the retry loop returns what `Stabilized` describes, after as many fetches as `Fetches` gives |
| Stabilization.StabilizedOutcome | internal/provider/helpers/stabilization.go:81-93 | a returned resource is one some fetch gave; the result is an error exactly when no attempt was stable and some fetch failed; with no failure and no stable attempt, the last fetch is returned |
| Stabilization.FirstFetchFailureSticks | internal/provider/helpers/stabilization.go:62-86 | a failed first fetch makes the result an error when no later fetch is stable, although the later fetches succeeded |
| Stabilization.LastSuccess | internal/provider/helpers/stabilization.go:146-153 | the last successful fetch before an attempt, every fetch after it having failed; none when all failed |
| Stabilization.WaitForResourceStabilizationByComparison | internal/provider/helpers/stabilization.go:125-174 | the retry loop returns what `StabilizedByComparison` describes, after as many fetches as `Fetches` gives |
| Stabilization.ComparisonNeedsTwoFetches | internal/provider/helpers/stabilization.go:146-155 | settling needs an earlier successful fetch that compares equal, so at least two fetches happen; the result is an error exactly when nothing settled and some fetch failed |
| Stabilization.SteadyResourceSettlesOnSecondFetch | internal/provider/helpers/stabilization.go:146-149 | a resource that never changes settles on the second fetch |
| Plans.DescriptionWithPlans | internal/provider/helpers/plans.go:49-53 | the result is exactly the template: a newline, the description, a blank line and the plan note, then the comma-joined plans and a full stop with a newline, with nothing in between |
| Plans.JoinWithSpace | internal/provider/helpers/plans.go:50 | joining with ", " is joining the spaced plans with "," |
| Plans.PlansReadBack | internal/provider/helpers/plans.go:50 | the plans can be read back from the joined text in argument order |
| Plans.Without | internal/provider/helpers/plans.go:22-33 | removing a plan keeps exactly the other plans |
| Plans.CloudPlansAreAllButOss | internal/provider/helpers/plans.go:22-33 | the Cloud plans are all plans but the open-source one, in the same order, and the plans are distinct |
| ValidatorDatetime.Validate | internal/provider/validator_datetime.go:25-49 | the validator appends the errors `ValidationErrors` gives for the value as written, and changes no state |
| ValidatorDatetime.ValidateCorrected | internal/provider/validator_datetime.go:33 | the same, with an unknown value left alone |
| ValidatorDatetime.ValidatorAcceptsUtcTimestamps | internal/provider/validator_datetime.go:33-47 | a known value passes exactly when it parses as RFC 3339 and ends in `+00:00`; each failed check reports its own error, the parse error first; a null value passes |
| ValidatorDatetime.ZuluRejected | internal/provider/validator_datetime.go:41-47 | a timestamp ending in `Z` is rejected for its zone |
| ValidatorDatetime.UnknownValueRejected | internal/provider/validator_datetime.go:33-47 | as written, an unknown value gets both errors; corrected, it gets none |
| TestPaths.Atoi | internal/testutils/helpers.go:66 | a parsed integer fits in 64 bits and comes from non-empty text |
| TestPaths.AtoiItoa | internal/testutils/helpers.go:66 | parsing reads back what `Itoa` writes, for every 64-bit integer |
| TestPaths.StepOf | internal/testutils/helpers.go:66-70 | a segment becomes a list index exactly when it parses as an integer, and a map key holding itself otherwise |
| TestPaths.Steps | internal/testutils/helpers.go:65-71 | one step per segment, in order |
| TestPaths.ExpectKnownValuePath | internal/testutils/helpers.go:58-72 | the path loop builds exactly `PathOf` of the text |
| TestPaths.PathSegments | internal/testutils/helpers.go:59-71 | a path without a dot is the root alone; otherwise the first segment is the root and every later one becomes its step, in order |
| TestPaths.RenderPathOf | internal/testutils/helpers.go:59-71 | writing a parsed path back gives the dotted text, as long as no integer segment has a sign or leading zeros |
| TestPaths.PathOfRender | internal/testutils/helpers.go:59-71 | parsing the text of a writable path gives the path back |
| TestPaths.ExpectKnownValueList | internal/testutils/helpers.go:93-100 | one exact-string check per value, in order, at the parsed path |
| TestPaths.TwoSegmentPath | internal/testutils/helpers.go:61-71 | a path of two segments is the root and one step |
| TestPaths.ListPathExample | internal/testutils/helpers.go:66-67 | `tags.0` indexes a list |
| Text.Split | internal/provider/helpers/import_state.go:15 | there is more than one part exactly when the separator occurs, and no part holds it |
| Text.JoinSplit | internal/provider/helpers/import_state.go:15 | joining the parts with the separator gives the text back |
| Text.SplitJoin | internal/provider/helpers/import_state.go:15 | splitting joined parts that hold no separator gives the parts back |
| Text.TrimPrefix | internal/provider/resources/account_member.go:286 | a present prefix is removed; otherwise the text is kept |
| Text.Lower | scripts/compare-and-sync-issues.py:125 | each capital ASCII letter is lower-cased, everything else kept |
| Text.LowerIsLowerAndIdempotent | scripts/compare-and-sync-issues.py:125 | lower-cased text has no capital, and lower-casing it again changes nothing |
| Text.Trim | internal/provider/resources/deployment.go:732 | the trimmed text is a slice of the text with only the character before and after it; it neither starts nor ends with the character, and is empty only when the text is made of it |
| Text.ReplaceAllAbsent | internal/provider/resources/deployment.go:735 | replacing a pattern that does not occur changes nothing |
| ServiceAccount.Equal | internal/provider/resource_service_account.go:441-452 | the key lists are equal exactly when they have the same length and each pair of keys has the same name and expiration |
| ServiceAccount.EqualIgnoresIdAndKey | internal/provider/resource_service_account.go:446-450 | the comparison ignores IDs and secrets, and is reflexive, symmetric and transitive |
| ServiceAccount.IndexById | internal/provider/resource_service_account.go:279-282 | every state key's ID is indexed, each at a position holding that ID |
| ServiceAccount.FetchApiKeysAsState | internal/provider/resource_service_account.go:260-317 | as written, the refresh places each fetched key as `Place` describes: a key in state at its state position with its secret, a new key in the next free slot from the end with an unknown secret |
| ServiceAccount.PlaceStep | internal/provider/resource_service_account.go:290-313 | each fetched key writes one slot inside the result, and a new key uses up one free slot |
| ServiceAccount.IndexState | internal/provider/resource_service_account.go:279-282 | the loop builds exactly the index by ID |
| ServiceAccount.IndexByIdDistinct | internal/provider/resource_service_account.go:279-282 | with distinct IDs, each ID is indexed at its own position |
| ServiceAccount.RefreshKeepsUnchangedKeys | internal/provider/resource_service_account.go:290-313 | when the API lists exactly the state's keys in the state's order, each key stays in place with its secret and the listed name and expiration |
| ServiceAccount.PlaceInOrder | internal/provider/resource_service_account.go:290-313 | when every key goes to its own position, the result lists them in order |
| ServiceAccount.RefreshReversesNewKeys | internal/provider/resource_service_account.go:299-306 | when no fetched key is in state, the result lists them in reverse, each with an unknown secret |
| ServiceAccount.NewCountAllNew | internal/provider/resource_service_account.go:299-303 | when no key is in state, every key counts as new |
| ServiceAccount.PlaceReversed | internal/provider/resource_service_account.go:299-306 | when the slots count down from the end, the filled part of the result is the fetched keys reversed |
| ServiceAccount.RefreshCollisionLosesKey | internal/provider/resource_service_account.go:293-308 | as written, a state of keys a and b with the API listing b and a new c puts c over b's slot, so b is lost and slot 0 keeps the zero key |
| ServiceAccount.RefreshOutOfRange | internal/provider/resource_service_account.go:295-308 | as written, a state of a and b with the API listing only b places b past the end of the one-key result |
| ServiceAccount.FetchedById | internal/provider/resource_service_account.go:290-293 | every fetched key is indexed under its own ID |
| ServiceAccount.KeptInStateOrder | internal/provider/resource_service_account.go:285 | every kept key carries its listed name and expiration |
| ServiceAccount.CreatedElsewhere | internal/provider/resource_service_account.go:300-305 | every key created outside Terraform is listed, not in state, and has an unknown secret; they come latest listed first, as the code fills them in from the end |
| ServiceAccount.FetchApiKeysAsStateCorrected | internal/provider/resource_service_account.go:285 | corrected, the refresh gives the keys in state order followed by the others latest listed first, as `Ordered` describes |
| ServiceAccount.IndexFetched | internal/provider/resource_service_account.go:290-293 | the loop builds exactly the index of fetched keys by ID |
| ServiceAccount.KeepInStateOrder | internal/provider/resource_service_account.go:279-285 | the loop builds the index by ID and the listed state keys in state order |
| ServiceAccount.CollectCreatedElsewhere | internal/provider/resource_service_account.go:299-306 | the loop collects exactly the listed keys that are not in state, latest listed first |
| ServiceAccount.CreatedAllNew | internal/provider/resource_service_account.go:299-306 | with no listed key in state, the created keys are all the listed ones, latest listed first, each with an unknown secret |
| ServiceAccount.CreatedNoneNew | internal/provider/resource_service_account.go:299-306 | with every listed key in state, no key is created |
| ServiceAccount.KeptNoneListed | internal/provider/resource_service_account.go:293-298 | with no state key listed, none is kept |
| ServiceAccount.KeptAllListed | internal/provider/resource_service_account.go:293-298 | with every state key listed, each is kept in its state position with its listed name and expiration and its secret |
| ServiceAccount.FetchedByIdDistinct | internal/provider/resource_service_account.go:290-293 | with distinct IDs, each listed key is indexed under its own ID |
| ServiceAccount.CorrectedAgreesWhenAllNew | internal/provider/resource_service_account.go:286-313 | when no listed key is in state, the corrected refresh gives exactly the list the code as written gives |
| ServiceAccount.CorrectedAgreesWhenUnchanged | internal/provider/resource_service_account.go:286-313 | when the API lists exactly the state's keys in the state's order, the corrected refresh gives exactly the list the code as written gives |
| ServiceAccount.UnchangedKeepsListing | internal/provider/resource_service_account.go:293-298 | when the API lists exactly the state's keys in the state's order, each is kept in its own position with its listing and its secret |
| ServiceAccount.UnchangedCreatesNothing | internal/provider/resource_service_account.go:299-306 | when the API lists exactly the state's keys, no key is created |
| ServiceAccount.KeptListsStateKey | internal/provider/resource_service_account.go:293-298 | a state key that is still listed is kept |
| ServiceAccount.CreatedListsNewKey | internal/provider/resource_service_account.go:299-306 | a listed key not in state is added |
| ServiceAccount.OrderedKeepsEveryKey | internal/provider/resource_service_account.go:285 | corrected, every fetched key is in the result; every result key carries its listed name and expiration; a key not in state has an unknown secret |
| ServiceAccount.OrderedListsEveryKey | internal/provider/resource_service_account.go:285 | corrected, every fetched key's ID appears in the result |
| ServiceAccount.OrderedCarriesListings | internal/provider/resource_service_account.go:308-313 | corrected, every result key was listed with the name and expiration it carries |
| ServiceAccount.OrderedNewKeysUnknown | internal/provider/resource_service_account.go:304-305 | corrected, a key not in state has an unknown secret |
| ServiceAccount.KeptAreInState | internal/provider/resource_service_account.go:293-298 | every kept key's ID is in state |
| ServiceAccount.RefreshCollisionCorrected | internal/provider/resource_service_account.go:285 | corrected, the collision example keeps b with its secret, followed by c |
| ServiceAccount.KeysByName | internal/provider/resource_service_account.go:378-381 | every state key is indexed under its name, each name mapping to a state key that has it |
| ServiceAccount.Rebuilt | internal/provider/resource_service_account.go:384-418 | the rebuilt list has one slot per plan key |
| ServiceAccount.FailedAmongStep | internal/provider/resource_service_account.go:421-437 | deleting one more orphan adds one error exactly when that deletion fails |
| ServiceAccount.FailedAmongAll | internal/provider/resource_service_account.go:421 | once every orphan has been tried, the failures are all the failed deletions |
| ServiceAccount.DeleteOrphans | internal/provider/resource_service_account.go:421-437 | every orphan is deleted once, and each failed or unsuccessful deletion adds one "Could not delete api key" error |
| ServiceAccount.IndexByName | internal/provider/resource_service_account.go:378-381 | the loop builds exactly the index by name |
| ServiceAccount.RebuildKeys | internal/provider/resource_service_account.go:384-418 | the rebuild loop gives exactly the unclaimed keys, the new list and the errors `Rebuilt` describes |
| ServiceAccount.ServiceAccount.UpdateApiKeys | internal/provider/resource_service_account.go:372-439 | as written: equal lists change nothing; otherwise the keys become the rebuilt list, every unclaimed state key is deleted, and the errors are the rebuild's followed by the failed deletions' |
| ServiceAccount.ServiceAccount.UpdateApiKeysCorrected | internal/provider/resource_service_account.go:390-399 | the same, with a key whose expiration changed kept rather than deleted |
| ServiceAccount.StepClaims | internal/provider/resource_service_account.go:387-399 | a plan key removes from the unclaimed keys exactly the state key it claims, and leaves the others as they were |
| ServiceAccount.RebuiltUnclaimed | internal/provider/resource_service_account.go:386-418 | a state key stays unclaimed exactly when no plan key so far claims it, and unclaimed keys are the state's own |
| ServiceAccount.UpdateCorrectedDeletesOnlyUnplanned | internal/provider/resource_service_account.go:420-421 | corrected, a state key is deleted exactly when no plan key has its name |
| ServiceAccount.UpdateDeletesReExpiredKey | internal/provider/resource_service_account.go:390-399 | as written, a state key whose plan entry changes its expiration is deleted although the plan still names it; corrected, it is kept |
| ServiceAccount.RebuiltSlots | internal/provider/resource_service_account.go:386-418 | with distinct plan names, each reached slot holds the state key for an unchanged expiration, the created key for a new name, and the zero key after a failed creation or (as written) a changed expiration; later slots hold the zero key |
| ServiceAccount.RebuiltPlanned | internal/provider/resource_service_account.go:386-418 | with distinct plan names, the first `n` slots hold their planned keys and the rest the zero key |
| ServiceAccount.PlannedPrefixStep | internal/provider/resource_service_account.go:386 | reaching one more slot writes its planned key where the zero key was |
| ServiceAccount.RebuiltStepPlans | internal/provider/resource_service_account.go:386-418 | one more plan key writes its planned key into its own slot and nothing else |
| ServiceAccount.UnclaimedBeforeFirstUse | internal/provider/resource_service_account.go:387 | a name no plan key so far carries is still unclaimed exactly when it was in state |
| ServiceAccount.StepWritesPlannedSlot | internal/provider/resource_service_account.go:387-417 | a plan key whose name is unclaimed as in state writes its planned key into its slot |
| ServiceAccount.UpdateAsWrittenLosesKey | internal/provider/resource_service_account.go:390-399 | as written, a key whose expiration changed leaves its slot zero and stays unclaimed, so it is deleted; corrected, it is kept |
| IssueSync.AfterClosing | scripts/compare-and-sync-issues.py:231-247 | the closing loop neither adds nor removes an issue |
| IssueSync.EditMatching | scripts/compare-and-sync-issues.py:258-262 | body edits neither add nor remove an issue |
| IssueSync.UpsertOne | scripts/compare-and-sync-issues.py:250-270 | one round of the upsert loop never removes an issue |
| IssueSync.Upsert | scripts/compare-and-sync-issues.py:250-270 | the upsert loop never removes an issue |
| IssueSync.Sync | scripts/compare-and-sync-issues.py:216-270 | a run never removes an issue |
| ServiceAccount.ServiceAccount.Update | internal/provider/resource_service_account.go:359 | the key update, as written or corrected: equal lists change nothing; otherwise the keys become the rebuilt list and the unclaimed state keys are deleted |
| Ordering.LessIrreflexive | scripts/compare.go:176 | no string sorts before itself |
| Ordering.LessTransitive | scripts/compare.go:176 | the string order is transitive |
| Ordering.LessTotal | scripts/compare.go:176 | any two different strings are ordered one way or the other |
| Ordering.LessAsymmetric | scripts/compare.go:176 | two strings are never ordered both ways |
| Ordering.Insert | scripts/compare-and-sync-issues.py:112 | inserting into a sorted list keeps it sorted and adds exactly the new element |
| Ordering.InsertUnique | scripts/compare-and-sync-issues.py:152 | inserting into a strictly sorted list keeps it strictly sorted, with the new element added to its elements |

## Left out

- Network I/O: the provider's HTTP and GraphQL transport, the audit scripts' fetches from the Terraform registry and the Cloud `openapi.json`, and the GitHub calls. Their inputs are already-parsed values and their effects are operations on abstract state.
- Foreign libraries are parameters with no behaviour of their own: `inflection.singularize`, `uuid.Parse`/`String`, `url.Parse`, `time.Parse`, base64, `helpers.IsCloudEndpoint`, `Is404Error`, `retryablehttp.ErrorPropagatedRetryPolicy`, the TOML decoder, `os.Stat` and `os.UserHomeDir`.
- `filepath.Join` of the home directory and the default profiles file is modelled as concatenation with a fixed `/.prefect/profiles.toml` suffix, without path cleaning.
- Retry delays, `time.Sleep`, context cancellation and the concurrent test server are timing and concurrency, not logic. The retry library appears only as "run the attempt until it succeeds or the attempts run out".
- Floating-point fields (slot decay, schedule intervals, metric thresholds) are not modelled.
- Terraform schema declarations and the framework's value conversions are left out. Of the framework, only null/unknown/known values and a response that collects attributes and error summaries are modelled.
- Diagnostic details and attribute paths are left out, because every error is modelled by its summary alone. `SetAttribute`'s own diagnostics are not modelled either.
- The model-mapping glue (`copyAutomationToModel`, `getUnderlyingValue` and similar) is left out. So is a whole `ResourceSpecification` map: its `{}` case is the empty map and needs nothing of the value codec.
- HTTP header keys are not canonicalised, because the header map is modelled with the keys as written.
- Python's `str.lower()` is modelled on ASCII letters only.
- `ServiceAccount.DeleteOrphans` deletes orphans in an order the model leaves open, because Go does not fix map iteration order. The error list is stated up to that order.
- Workspace: the model reads the description as a plain string. The nil dereference of `*workspace.Description` is not modelled.
- `ServiceAccount.ServiceAccount.Update` models only the API-key part of the resource's Update. The name and role update and the bail-out on earlier diagnostics are not modelled.
- `ServiceAccount.FetchApiKeysAsState` requires every computed slot to lie inside the result. As written, the code indexes outside it and panics when a state key's position is at or past the number of fetched keys; `ServiceAccount.RefreshOutOfRange` exhibits that input instead.
- `WorkQueue.CreateRequest` requires a non-null priority, because the code dereferences the priority pointer. An optional computed attribute is unknown rather than null in a plan.
- `WorkQueue.PayloadsCompared` has the same requirement, for the same reason.
- `Block.GetLatestBlockSchema` starts after the block type and the schema client have been obtained. The errors of those lookups are not modelled; failures of the listing itself are.
- `IssueSync` members require a snapshot that lists each issue at most once and a well-formed status report (every key has a status). The label query and `find_diffs` always produce such values.
- The legacy SDK v2 files, the draft service-account resource, `data_source_work_pool.go`, the acceptance tests, the sweepers and the ephemeral resources are not part of this model.
- The cloud tag list follows the code at scripts/compare-and-sync-issues.py:149-153, not its docstring's promise of unique, sorted tags. The raw tags are deduplicated and sorted, then normalised. Two raw tags can normalise to the same name, and the normalised list need not be sorted. `find_diffs` then keeps one entry per name, in first-occurrence order.

## Findings

| source | as written | input that shows it | evidently intended | confidence | as-written member | corrected member |
|---|---|---|---|---|---|---|
| scripts/compare-and-sync-issues.py:258-262 | the body edit is applied to `issue`, which is the last issue of the earlier closing loop, not the one that matched | open issues for `x` (pending) and `y` (fully implemented): `x`'s status is written into `y`'s closed issue | edit the issue whose title matches the resource | not executed | IssueSync.SyncAsWrittenEditsWrongIssue | IssueSync.SyncCorrectedBodies |
| internal/provider/resource_service_account.go:286-308 | a fetched key in state goes to its state position and a new key goes to the next free slot from the end, so the two can meet, or the state position can lie outside the result | state `[a, b]`, API lists `[b, c]`: `c` overwrites `b` at slot 1. State `[a, b]`, API lists `[b]`: slot 1 is out of range | every fetched key is kept: state keys in state order, then the new keys latest listed first, the order in which the code fills them in; when no listed key is in state, or the listing matches the state, the two agree | not executed | ServiceAccount.RefreshCollisionLosesKey | ServiceAccount.FetchApiKeysAsStateCorrected |
| internal/provider/resource_service_account.go:390-399 | a plan key whose expiration changed reaches `continue` before the key is removed from the orphan map | a state key `k` whose plan entry changes only its expiration: `k` is deleted as an orphan | delete only the state keys that no plan key names | not executed | ServiceAccount.UpdateDeletesReExpiredKey | ServiceAccount.ServiceAccount.UpdateApiKeysCorrected |
| internal/provider/provider.go:134-142 | a `url.Parse` error only adds a diagnostic, and the nil URL is then dereferenced | an endpoint that `url.Parse` rejects, with the other values known | stop with the endpoint error | not executed | Provider.ConfigurePanicsOnUnparsableEndpoint | Provider.ConfigureCorrected |
| internal/provider/validator_datetime.go:33-47 | only null values are skipped; an unknown value is checked as the empty string | a timestamp attribute set from another resource's attribute that is not known yet: both errors | skip unknown values as well | not executed | ValidatorDatetime.UnknownValueRejected | ValidatorDatetime.ValidateCorrected |
