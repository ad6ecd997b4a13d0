/**
 * How the import-ID grammars of the resources relate to each other: which
 * parsers accept the same IDs and set the same attributes, and where they
 * part ways.
 */
module ImportFamily {
  import opened Wrappers
  import opened Text
  import opened Framework
  import opened ImportState
  import opened Block
  import opened ConcurrencyLimit
  import opened Variable
  import opened Flow

  /** Block and concurrency-limit imports accept the same IDs and set the
      same attributes; only the error wording differs. */
  lemma BlockAgreesWithConcurrencyLimit(parseUuid: UuidParser, id: string)
    ensures BlockImportOutcome(parseUuid, id).attrs == ConcurrencyLimitImportOutcome(parseUuid, id).attrs
    ensures BlockImportOutcome(parseUuid, id).error.Some? <==> ConcurrencyLimitImportOutcome(parseUuid, id).error.Some?
  {
  }

  /** A variable ID whose first part does not start with `name/` imports
      exactly like a block ID. */
  lemma VariableAgreesWithBlock(parseUuid: UuidParser, id: string)
    requires !HasPrefix(Split(id, ',')[0], Variable.NamePrefix)
    ensures VariableImportOutcome(parseUuid, id).attrs == BlockImportOutcome(parseUuid, id).attrs
    ensures VariableImportOutcome(parseUuid, id).error.Some? <==> BlockImportOutcome(parseUuid, id).error.Some?
  {
  }

  /** The shared helper is stricter than the block parser: whatever it
      accepts, the block parser accepts with the same attributes, but a
      trailing comma is accepted by the block parser only. */
  lemma SharedImportStricterThanBlock(parseUuid: UuidParser, id: string, block: string)
    requires ',' !in block
    ensures ImportOutcome("id", parseUuid, id).error.None? ==>
      BlockImportOutcome(parseUuid, id) == ImportOutcome("id", parseUuid, id)
    ensures ImportOutcome("id", parseUuid, block + ",").error.Some?
    ensures BlockImportOutcome(parseUuid, block + ",").error.None?
  {
    TwoParts(block, "", ',');
    assert block + [','] + "" == block + ",";
  }

  /** A flow's two-part ID is the other resources' ID read backwards: the
      workspace comes first, and it is not checked to be a UUID. */
  lemma FlowReversesSharedImport(parseUuid: UuidParser, workspace: string, flow: string)
    requires ',' !in workspace && ',' !in flow && workspace != "" && flow != ""
    requires parseUuid(workspace) == Some(workspace)
    ensures FlowImportOutcome(workspace + "," + flow) == ImportOutcome("id", parseUuid, flow + "," + workspace)
  {
    FlowImportTwoParts(workspace, flow);
    ImportWithWorkspace("id", parseUuid, flow, workspace);
  }
}
