/**
 * The deployment resource's own helpers: its import-ID parser, the unquoting
 * of object attribute values, and the copy of the optional concurrency fields
 * from an API deployment into the Terraform model.
 */
module Deployment {
  import opened Wrappers
  import opened Text
  import opened Framework
  import opened ImportState

  /** What the deployment's `ImportState` records for an import ID. */
  function DeploymentImportOutcome(parseUuid: UuidParser, id: string): Outcome
  {
    var parts := Split(id, ',');
    if |parts| > 2 then Outcome(map[], Some(UnexpectedImport))
    else if |parts| == 2 && (parts[0] == "" || parts[1] == "") then Outcome(map[], Some(UnexpectedImport))
    else if |parts| == 2 && parts[1] != "" then
      match parseUuid(parts[1])
      case None => Outcome(map["id" := parts[0]], Some(ParseUuidError("Deployment")))
      case Some(w) => Outcome(map["id" := parts[0], "workspace_id" := w], None)
    else Outcome(map["id" := parts[0]], None)
  }

  /** `DeploymentResource.ImportState`. */
  method ImportDeployment(resp: Response, parseUuid: UuidParser, id: string)
    modifies resp
    ensures var o := DeploymentImportOutcome(parseUuid, id);
      resp.state == old(resp.state) + o.attrs && resp.errors == old(resp.errors) + ErrorsOf(o.error)
  {
    var parts := Split(id, ',');
    if |parts| > 2 {
      resp.AddError(UnexpectedImport);
      return;
    }
    if |parts| == 2 && (parts[0] == "" || parts[1] == "") {
      resp.AddError(UnexpectedImport);
      return;
    }
    resp.SetAttribute("id", parts[0]);
    if |parts| == 2 && parts[1] != "" {
      var workspaceId := parseUuid(parts[1]);
      if workspaceId.None? {
        resp.AddError(ParseUuidError("Deployment"));
        return;
      }
      resp.SetAttribute("workspace_id", workspaceId.value);
    }
  }

  /** The deployment parser accepts exactly what the shared `ImportState`
      helper accepts and sets the same attributes; only the wording of the
      UUID error differs. */
  lemma DeploymentImportIsSharedImport(parseUuid: UuidParser, id: string)
    ensures DeploymentImportOutcome(parseUuid, id).attrs == ImportOutcome("id", parseUuid, id).attrs
    ensures DeploymentImportOutcome(parseUuid, id).error.Some? <==> ImportOutcome("id", parseUuid, id).error.Some?
  {
  }

  const ProblemEscaping := "problemescaping"

  /** `getUnescapedValue`: the attribute's rendering with every leading and
      trailing `"` trimmed and each `\"` turned into `"`; a missing key gives a
      fixed marker. `attrs` maps each key to its value's `String()` rendering. */
  function UnescapedValue(attrs: map<string, string>, key: string): (r: string)
    ensures key !in attrs ==> r == ProblemEscaping
  {
    if key in attrs then ReplaceAll(Trim(attrs[key], '"'), "\\\"", "\"") else ProblemEscaping
  }

  /** A string rendered in quotes, with no quote inside, comes back as itself:
      the rendering `"ENQUEUE"` gives `ENQUEUE`. */
  lemma UnescapedQuoted(attrs: map<string, string>, key: string, s: string)
    requires '"' !in s
    requires key in attrs && attrs[key] == "\"" + s + "\""
    ensures UnescapedValue(attrs, key) == s
  {
    TrimEnclosed(s, '"');
    NotContainedWithout(s, "\\\"", 1);
    ReplaceAllAbsent(s, "\\\"", "\"");
  }

  /** An escaped quote inside the value is unescaped. */
  lemma UnescapedInnerQuote()
    ensures UnescapedValue(map["k" := "\"a\\\"b\""], "k") == "a\"b"
  {
    var pattern := "\\\"";
    var t := ['a'] + pattern + ['b'];
    var quoted := ['"'] + t + ['"'];
    assert quoted == "\"a\\\"b\"";
    assert quoted[1..] == t + ['"'];
    assert TrimLeft(t + ['"'], '"') == t + ['"'];
    assert (t + ['"'])[..|t|] == t;
    assert TrimRight(t, '"') == t;
    assert Trim(quoted, '"') == t;
    assert t[..2] != pattern;
    assert t[1..] == pattern + "b";
    ReplaceAllLeading(pattern, "b", "\"");
    assert ReplaceAll(t, pattern, "\"") == "a\"b";
  }

  /** The concurrency fields of an API deployment: the global concurrency
      limit and the collision strategy of the concurrency options, each absent
      when the API object's pointer is nil. */
  datatype ApiConcurrency = ApiConcurrency(globalLimit: Option<int>, collisionStrategy: Option<string>)

  /** The two optional fields of the deployment's Terraform model. */
  class DeploymentModel {
    var concurrencyLimit: Value<int>
    var collisionStrategy: Value<string>

    constructor (limit: Value<int>, strategy: Value<string>)
      ensures concurrencyLimit == limit && collisionStrategy == strategy
    {
      concurrencyLimit := limit;
      collisionStrategy := strategy;
    }

    /** The optional-field part of `copyDeploymentToModel`: each field is
        overwritten when the API object carries it and kept otherwise. */
    method CopyConcurrency(d: ApiConcurrency)
      modifies this
      ensures (concurrencyLimit, collisionStrategy) == CopiedConcurrency(old(concurrencyLimit), old(collisionStrategy), d)
    {
      if d.globalLimit.Some? {
        concurrencyLimit := Known(d.globalLimit.value);
      }
      if d.collisionStrategy.Some? {
        collisionStrategy := Known(d.collisionStrategy.value);
      }
    }
  }

  /** The field values after the copy, as a function of the values before. */
  function CopiedConcurrency(limit: Value<int>, strategy: Value<string>, d: ApiConcurrency): (r: (Value<int>, Value<string>))
    ensures d.globalLimit.None? ==> r.0 == limit
    ensures d.collisionStrategy.None? ==> r.1 == strategy
    ensures d.globalLimit.Some? ==> r.0 == Known(d.globalLimit.value)
    ensures d.collisionStrategy.Some? ==> r.1 == Known(d.collisionStrategy.value)
  {
    (if d.globalLimit.Some? then Known(d.globalLimit.value) else limit,
     if d.collisionStrategy.Some? then Known(d.collisionStrategy.value) else strategy)
  }

  /** Copying the same API object twice is copying it once, and an object
      carrying both fields overwrites whatever the model held. */
  lemma CopyConcurrencyIdempotent(limit: Value<int>, strategy: Value<string>, d: ApiConcurrency)
    ensures var once := CopiedConcurrency(limit, strategy, d);
      CopiedConcurrency(once.0, once.1, d) == once
    ensures d.globalLimit.Some? && d.collisionStrategy.Some? ==>
      forall l: Value<int>, s: Value<string> {:trigger CopiedConcurrency(l, s, d)} ::
        CopiedConcurrency(l, s, d) == CopiedConcurrency(limit, strategy, d)
  {
  }
}
