/**
 * The block resource: its import-ID parser, and the bounded search for the
 * latest schema of a block type, which retries while the API lists none.
 */
module Block {
  import opened Wrappers
  import opened Text
  import opened Framework
  import opened ImportState

  const ImportError := "Error importing Block"

  /** What the block's `ImportState` records for an import ID: an empty
      workspace part is ignored. */
  function BlockImportOutcome(parseUuid: UuidParser, id: string): Outcome
  {
    var parts := Split(id, ',');
    if |parts| > 2 then Outcome(map[], Some(ImportError))
    else if |parts| == 2 && parts[1] != "" then
      match parseUuid(parts[1])
      case None => Outcome(map["id" := parts[0]], Some(ParseUuidError("Workspace")))
      case Some(w) => Outcome(map["id" := parts[0], "workspace_id" := w], None)
    else Outcome(map["id" := parts[0]], None)
  }

  /** `BlockResource.ImportState`. */
  method ImportBlock(resp: Response, parseUuid: UuidParser, id: string)
    modifies resp
    ensures var o := BlockImportOutcome(parseUuid, id);
      resp.state == old(resp.state) + o.attrs && resp.errors == old(resp.errors) + ErrorsOf(o.error)
  {
    var parts := Split(id, ',');
    if |parts| > 2 {
      resp.AddError(ImportError);
      return;
    }
    resp.SetAttribute("id", parts[0]);
    if |parts| == 2 && parts[1] != "" {
      var workspaceId := parseUuid(parts[1]);
      if workspaceId.None? {
        resp.AddError(ParseUuidError("Workspace"));
        return;
      }
      resp.SetAttribute("workspace_id", workspaceId.value);
    }
  }

  /** The block ID is the first part whatever it is, and an ID followed by an
      empty workspace part imports like the bare ID. */
  lemma BlockImportForms(parseUuid: UuidParser, block: string)
    requires ',' !in block
    ensures BlockImportOutcome(parseUuid, block) == Outcome(map["id" := block], None)
    ensures BlockImportOutcome(parseUuid, block + ",") == Outcome(map["id" := block], None)
  {
    SplitNoSeparator(block, ',');
    TwoParts(block, "", ',');
    assert block + [','] + "" == block + ",";
  }

  /** A block schema as listed by the API. */
  datatype BlockSchema = BlockSchema(id: string, checksum: string)

  /** `api.BlockSchema{}`: its ID is the nil UUID. */
  const ZeroSchema := BlockSchema(NilUuid, "")
  const RetryCount := 3
  const NoSchemas := "No block schemas found"

  /** `listBlockSchemasFunc` at attempt `i`: the API's answer may change from
      one attempt to the next. */
  type Attempts = nat -> Result<seq<BlockSchema>>

  /** The loop from attempt `i` on: stop at the first error or at the first
      non-empty listing, whose first schema is taken. */
  function SchemaSearch(attempts: Attempts, i: nat): Result<Option<BlockSchema>>
    decreases RetryCount - i
  {
    if i >= RetryCount then Ok(None)
    else match attempts(i)
      case Err(m) => Err(m)
      case Ok(listed) => if |listed| > 0 then Ok(Some(listed[0])) else SchemaSearch(attempts, i + 1)
  }

  /** The result of `getLatestBlockSchema` once the block type is known. */
  function LatestSchema(attempts: Attempts): Result<BlockSchema>
  {
    match SchemaSearch(attempts, 0)
    case Err(m) => Err(m)
    case Ok(found) =>
      var result := if found.Some? then found.value else ZeroSchema;
      if result.id == NilUuid then Err(NoSchemas) else Ok(result)
  }

  /** `getLatestBlockSchema` after the block type lookup: at most three
      listings, the first schema of the first non-empty one, and an error
      when none is found. */
  method GetLatestBlockSchema(attempts: Attempts) returns (r: Result<BlockSchema>)
    ensures r == LatestSchema(attempts)
  {
    var result := ZeroSchema;
    var i := 0;
    while i < RetryCount
      invariant 0 <= i <= RetryCount
      invariant SchemaSearch(attempts, i) == SchemaSearch(attempts, 0)
      invariant result == ZeroSchema
    {
      var listed := attempts(i);
      if listed.Err? {
        return Err(listed.message);
      }
      if |listed.value| > 0 {
        result := listed.value[0];
        break;
      }
      i := i + 1;
    }
    if result.id == NilUuid {
      return Err(NoSchemas);
    }
    return Ok(result);
  }

  /** Attempts `i` to `i + k - 1` all answered with an empty listing. */
  predicate AllEmpty(attempts: Attempts, i: nat, k: nat)
  {
    forall j :: i <= j < i + k ==> attempts(j) == Ok([])
  }

  /** Attempt `k` is the first from `i` on with a non-empty listing, and `s`
      heads that listing. */
  predicate FoundAt(attempts: Attempts, i: nat, k: nat, s: BlockSchema)
  {
    i <= k < RetryCount && AllEmpty(attempts, i, k - i) && attempts(k).Ok? &&
    |attempts(k).value| > 0 && attempts(k).value[0] == s
  }

  /** Only the first three attempts matter. */
  lemma {:induction false} SchemaSearchUsesThreeAttempts(a: Attempts, b: Attempts, i: nat)
    requires forall j: nat :: j < RetryCount ==> a(j) == b(j)
    ensures SchemaSearch(a, i) == SchemaSearch(b, i)
    decreases RetryCount - i
  {
    if i < RetryCount {
      SchemaSearchUsesThreeAttempts(a, b, i + 1);
    }
  }

  /** A found schema is the first element of some attempt's listing, every
      earlier attempt having listed nothing. */
  lemma {:induction false} SchemaSearchFinds(a: Attempts, i: nat)
    requires SchemaSearch(a, i).Ok? && SchemaSearch(a, i).value.Some?
    ensures exists k :: FoundAt(a, i, k, SchemaSearch(a, i).value.value)
    decreases RetryCount - i
  {
    var listed := a(i).value;
    if |listed| > 0 {
      assert FoundAt(a, i, i, listed[0]);
    } else {
      SchemaSearchFinds(a, i + 1);
      var k :| FoundAt(a, i + 1, k, SchemaSearch(a, i + 1).value.value);
      assert FoundAt(a, i, k, SchemaSearch(a, i).value.value);
    }
  }

  /** Three empty listings are an error. */
  lemma ThreeEmptyListings(a: Attempts)
    requires AllEmpty(a, 0, RetryCount)
    ensures LatestSchema(a) == Err(NoSchemas)
  {
    assert a(0) == Ok([]) && a(1) == Ok([]) && a(2) == Ok([]);
  }

  /** What the schema lookup returns: a schema from one of the first three
      listings, after only empty ones, and never the nil schema. */
  lemma LatestSchemaProperties(a: Attempts, b: Attempts)
    ensures LatestSchema(a).Ok? ==> LatestSchema(a).value.id != NilUuid
    ensures LatestSchema(a).Ok? ==> exists k :: FoundAt(a, 0, k, LatestSchema(a).value)
    ensures (forall j: nat :: j < RetryCount ==> a(j) == b(j)) ==> LatestSchema(a) == LatestSchema(b)
  {
    if LatestSchema(a).Ok? {
      SchemaSearchFinds(a, 0);
    }
    if forall j: nat :: j < RetryCount ==> a(j) == b(j) {
      SchemaSearchUsesThreeAttempts(a, b, 0);
    }
  }
}
