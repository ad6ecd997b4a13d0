/**
 * The work queue resource: its import-ID parser (`work_pool,queue` or
 * `work_pool,queue,workspace_id`) and the request payloads its Create and
 * Update build from the plan.
 */
module WorkQueue {
  import opened Wrappers
  import opened Text
  import opened Framework
  import opened ImportState

  /** What the work queue's `ImportState` records for an import ID. */
  function WorkQueueImportOutcome(id: string): Outcome
  {
    var parts := Split(id, ',');
    if |parts| == 2 then Outcome(map["work_pool_name" := parts[0], "name" := parts[1]], None)
    else if |parts| == 3 then Outcome(map["work_pool_name" := parts[0], "name" := parts[1], "workspace_id" := parts[2]], None)
    else Outcome(map[], Some(UnexpectedImport))
  }

  /** `WorkQueueResource.ImportState`: a switch on the number of parts. */
  method ImportWorkQueue(resp: Response, id: string)
    modifies resp
    ensures var o := WorkQueueImportOutcome(id);
      resp.state == old(resp.state) + o.attrs && resp.errors == old(resp.errors) + ErrorsOf(o.error)
  {
    var parts := Split(id, ',');
    if |parts| == 2 {
      resp.SetAttribute("work_pool_name", parts[0]);
      resp.SetAttribute("name", parts[1]);
    } else if |parts| == 3 {
      resp.SetAttribute("work_pool_name", parts[0]);
      resp.SetAttribute("name", parts[1]);
      resp.SetAttribute("workspace_id", parts[2]);
    } else {
      resp.AddError(UnexpectedImport);
    }
  }

  /** The parts joined with commas import back to the same attributes; the
      workspace part is taken verbatim, without a UUID check, and empty parts
      are accepted. */
  lemma WorkQueueImportRoundTrip(pool: string, queue: string, workspace: string)
    requires ',' !in pool && ',' !in queue && ',' !in workspace
    ensures WorkQueueImportOutcome(pool + "," + queue) == Outcome(map["work_pool_name" := pool, "name" := queue], None)
    ensures WorkQueueImportOutcome(pool + "," + queue + "," + workspace)
      == Outcome(map["work_pool_name" := pool, "name" := queue, "workspace_id" := workspace], None)
  {
    TwoParts(pool, queue, ',');
    SplitAfterHead(pool, ',', queue + "," + workspace);
    TwoParts(queue, workspace, ',');
    assert pool + "," + queue + "," + workspace == pool + [','] + (queue + [','] + workspace);
  }

  /** Any ID with fewer than two or more than three parts is refused. */
  lemma WorkQueueImportPartCount(id: string)
    ensures WorkQueueImportOutcome(id).error.None? <==> 2 <= |Split(id, ',')| <= 3
  {
  }

  /** The plan of a work queue. */
  datatype WorkQueuePlan = WorkQueuePlan(
    name: Value<string>, isPaused: Value<bool>, concurrencyLimit: Value<int>,
    description: Value<string>, priority: Value<int>)

  /** `api.WorkQueueCreate`: nil pointers are absent fields. */
  datatype CreatePayload = CreatePayload(
    name: string, isPaused: Option<bool>, concurrencyLimit: Option<int>,
    description: Option<string>, priority: Option<int>)

  /** `api.WorkQueueUpdate`. */
  datatype UpdatePayload = UpdatePayload(
    isPaused: Option<bool>, concurrencyLimit: Option<int>,
    description: Option<string>, priority: Option<int>)

  /** The payload of Create. The priority pointer is dereferenced, so it must
      not be null (an optional computed attribute is unknown, not null, in a
      plan); it is forwarded only when it is not 0, the value an unset
      priority reads as. */
  method CreateRequest(plan: WorkQueuePlan) returns (req: CreatePayload)
    requires !plan.priority.Null?
    ensures req.name == StringOf(plan.name)
    ensures req.isPaused == PointerOf(plan.isPaused, false)
    ensures req.concurrencyLimit == PointerOf(plan.concurrencyLimit, 0)
    ensures req.description == PointerOf(plan.description, "")
    ensures req.priority.Some? <==> plan.priority.Known? && plan.priority.value != 0
    ensures req.priority.Some? ==> req.priority.value == plan.priority.value
  {
    req := CreatePayload(StringOf(plan.name), PointerOf(plan.isPaused, false),
      PointerOf(plan.concurrencyLimit, 0), PointerOf(plan.description, ""), None);
    var priority := PointerOf(plan.priority, 0);
    if priority.value != 0 {
      req := req.(priority := priority);
    }
  }

  /** The payload of Update: a null description is sent as "", and the
      priority is forwarded whenever it is not null. */
  method UpdateRequest(plan: WorkQueuePlan) returns (req: UpdatePayload)
    ensures req.isPaused == PointerOf(plan.isPaused, false)
    ensures req.concurrencyLimit == PointerOf(plan.concurrencyLimit, 0)
    ensures req.description == (if plan.description.Null? then Some("") else PointerOf(plan.description, ""))
    ensures req.priority == (if plan.priority.Null? then None else PointerOf(plan.priority, 0))
  {
    req := UpdatePayload(PointerOf(plan.isPaused, false), PointerOf(plan.concurrencyLimit, 0), None, None);
    if plan.description.Null? {
      req := req.(description := Some(""));
    } else {
      req := req.(description := PointerOf(plan.description, ""));
    }
    if !plan.priority.Null? {
      req := req.(priority := PointerOf(plan.priority, 0));
    }
  }

  /** Update always sends a description, and the two payloads differ exactly
      on a zero priority: Create omits it, Update sends it. */
  method PayloadsCompared(plan: WorkQueuePlan) returns (create: CreatePayload, update: UpdatePayload)
    requires !plan.priority.Null?
    ensures update.description.Some?
    ensures create.priority.Some? ==> update.priority == create.priority
    ensures plan.priority == Known(0) ==> create.priority.None? && update.priority == Some(0)
    ensures create.isPaused == update.isPaused && create.concurrencyLimit == update.concurrencyLimit
  {
    create := CreateRequest(plan);
    update := UpdateRequest(plan);
  }
}
