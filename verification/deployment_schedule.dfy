/**
 * The deployment schedule resource: finding a schedule by ID in the list the
 * API returns, the check that a list is not empty, and the copy of an API
 * schedule into the Terraform model, including the rule that makes the
 * parameters null.
 */
module DeploymentSchedule {
  import opened Wrappers
  import opened Framework

  /** An API deployment schedule (float fields left out); timestamps are
      formatted text, absent when nil; parameters map each name to its JSON. */
  datatype ApiSchedule = ApiSchedule(
    id: string, created: Option<string>, updated: Option<string>,
    deploymentId: string, active: Option<bool>,
    timezone: string, anchorDate: string, cron: string, dayOr: bool, rrule: string,
    parameters: map<string, string>, slug: string)

  /** `schedules[i]` is the first schedule with the given ID. */
  predicate FirstWithId(schedules: seq<ApiSchedule>, id: string, i: int)
  {
    0 <= i < |schedules| && schedules[i].id == id && forall j :: 0 <= j < i ==> schedules[j].id != id
  }

  function NotFound(id: string): string
  {
    "schedule with ID " + id + " not found"
  }

  /** `getScheduleByID`: the first schedule whose ID is the model's ID, or an
      error when no schedule has it. */
  method GetScheduleById(id: string, schedules: seq<ApiSchedule>) returns (r: Result<ApiSchedule>)
    ensures r.Ok? <==> exists i :: 0 <= i < |schedules| && schedules[i].id == id
    ensures r.Ok? ==> exists i :: FirstWithId(schedules, id, i) && r.value == schedules[i]
    ensures r.Err? ==> r.message == NotFound(id)
  {
    var i := 0;
    while i < |schedules|
      invariant 0 <= i <= |schedules|
      invariant forall j :: 0 <= j < i ==> schedules[j].id != id
    {
      if schedules[i].id == id {
        assert FirstWithId(schedules, id, i);
        return Ok(schedules[i]);
      }
      i := i + 1;
    }
    return Err(NotFound(id));
  }

  /** Two schedules found by the same ID are the same schedule: the lookup
      never looks past the first match. */
  lemma FirstWithIdUnique(schedules: seq<ApiSchedule>, id: string, i: int, k: int)
    requires FirstWithId(schedules, id, i) && FirstWithId(schedules, id, k)
    ensures i == k
  {
  }

  const ScheduleNotFound := "Schedule not found"

  /** `validateSchedules`: an error exactly for an empty list. */
  function ValidateSchedules(schedules: seq<ApiSchedule>): (r: Option<string>)
    ensures r.Some? <==> |schedules| == 0
    ensures r.Some? ==> r.value == ScheduleNotFound
  {
    if |schedules| == 0 then Some(ScheduleNotFound) else None
  }

  /** `json.Marshal` of a parameter map: the JSON text, or `None` on failure.
      The encoder is a foreign library. */
  type Marshaller = map<string, string> -> Option<string>

  /** The attributes `copyScheduleModelToResourceModel` writes. */
  class ScheduleModel {
    var id: Value<string>
    var created: Value<string>
    var updated: Value<string>
    var deploymentId: Value<string>
    var active: Value<bool>
    var timezone: Value<string>
    var anchorDate: Value<string>
    var cron: Value<string>
    var dayOr: Value<bool>
    var rrule: Value<string>
    var parameters: Value<string>
    var slug: Value<string>

    constructor ()
      ensures id == Null && parameters == Null
    {
      id, created, updated, deploymentId := Null, Null, Null, Null;
      active, timezone, anchorDate, cron := Null, Null, Null, Null;
      dayOr, rrule, parameters, slug := Null, Null, Null, Null;
    }

    /** The model holds the schedule's fields: the plain fields are
        overwritten; the parameters become null exactly when the map is
        empty, take the encoded JSON otherwise, and are kept when the
        encoding fails. */
    twostate predicate CopiedFrom(s: ApiSchedule, marshal: Marshaller)
      reads this
    {
      id == Known(s.id) && deploymentId == Known(s.deploymentId) && slug == Known(s.slug) &&
      created == (if s.created.Some? then Known(s.created.value) else Null) &&
      updated == (if s.updated.Some? then Known(s.updated.value) else Null) &&
      active == (if s.active.Some? then Known(s.active.value) else Null) &&
      timezone == Known(s.timezone) && anchorDate == Known(s.anchorDate) && cron == Known(s.cron) &&
      dayOr == Known(s.dayOr) && rrule == Known(s.rrule) &&
      (parameters.Null? <==> |s.parameters| == 0 || (marshal(s.parameters).None? && old(parameters).Null?)) &&
      (|s.parameters| > 0 ==>
        parameters == (if marshal(s.parameters).Some? then Known(marshal(s.parameters).value) else old(parameters)))
    }

    /** `copyScheduleModelToResourceModel`. */
    method CopySchedule(s: ApiSchedule, marshal: Marshaller)
      modifies this
      ensures CopiedFrom(s, marshal)
    {
      id := Known(s.id);
      created := if s.created.Some? then Known(s.created.value) else Null;
      updated := if s.updated.Some? then Known(s.updated.value) else Null;
      deploymentId := Known(s.deploymentId);
      active := if s.active.Some? then Known(s.active.value) else Null;
      timezone := Known(s.timezone);
      anchorDate := Known(s.anchorDate);
      cron := Known(s.cron);
      dayOr := Known(s.dayOr);
      rrule := Known(s.rrule);
      if |s.parameters| > 0 {
        var encoded := marshal(s.parameters);
        if encoded.Some? {
          parameters := Known(encoded.value);
        }
      } else {
        parameters := Null;
      }
      slug := Known(s.slug);
      assert CopiedFrom(s, marshal);
    }
  }

  /** The tail of Create: validate the returned list, then copy its first
      schedule; an empty list is an error and leaves the model alone. */
  method CreateFromResponse(model: ScheduleModel, schedules: seq<ApiSchedule>, marshal: Marshaller)
    returns (error: Option<string>)
    modifies model
    ensures error == ValidateSchedules(schedules)
    ensures error.Some? ==> unchanged(model)
    ensures error.None? ==> model.CopiedFrom(schedules[0], marshal)
  {
    error := ValidateSchedules(schedules);
    if error.Some? {
      return;
    }
    model.CopySchedule(schedules[0], marshal);
  }
}
