/**
 * The medication service: by-id lookup, the mark-as-taken call, and the
 * active and needing-refill views derived from the fetched list.
 */
module Medications {
  import opened Wrappers
  import opened Js
  import opened Text
  import opened Types
  import opened Lists
  import Config
  import Client

  /** `getAllMedications`. */
  function GetAll(): Client.Call {
    Client.Get(Config.Path(Config.MEDICATIONS), [])
  }

  /** `getMedicationById(id)`. */
  function GetById(id: int): Client.Call {
    Client.Get(Config.Path(Config.MEDICATION_BY_ID), Client.IdParam(id))
  }

  /** The `{ date, time }` body of a mark-as-taken call. */
  function TakenBody(date: string, time: string): (b: Json)
    ensures Field(b, "date") == Some(Str(date)) && Field(b, "time") == Some(Str(time))
    ensures b.Obj? && b.fields.Keys == {"date", "time"}
  {
    Obj(map["date" := Str(date), "time" := Str(time)])
  }

  /** `markAsTaken(medicationId, date, time)`. */
  function MarkAsTaken(medicationId: int, date: string, time: string): Client.Call {
    Client.Post(Config.Path(Config.MEDICATION_MARK_TAKEN), TakenBody(date, time), Client.IdParam(medicationId))
  }

  /** The lookup addresses `/api/medications/<id>`; mark-as-taken POSTs the dose to `/api/medications/<id>/taken`. */
  lemma CallTargets(id: int, baseURL: string, date: string, time: string)
    ensures GetById(id).verb == Client.GET && GetById(id).body == None
    ensures Client.Url(baseURL, GetById(id).endpoint, GetById(id).params) == Client.Prefix(baseURL) + "/api/medications/" + IntToString(id)
    ensures MarkAsTaken(id, date, time).verb == Client.POST && MarkAsTaken(id, date, time).body == Some(TakenBody(date, time))
    ensures Client.Url(baseURL, MarkAsTaken(id, date, time).endpoint, MarkAsTaken(id, date, time).params)
      == Client.Prefix(baseURL) + "/api/medications/" + IntToString(id) + "/taken"
  {
    Client.ByIdTarget(Config.MEDICATION_BY_ID, baseURL, id, "/api/medications/");
    Client.ByIdTargetWithin(Config.MEDICATION_MARK_TAKEN, baseURL, id, "/api/medications/", "/taken");
  }

  /** A medication is active when it has no (or an empty) end date, or its end date is not before now. */
  predicate IsActive(m: Medication, now: int, parse: string -> Instant) {
    m.endDate.None? || m.endDate.value == "" || AtOrAfter(parse(m.endDate.value), now)
  }

  /** `getActiveMedications`: exactly the active medications, in fetched order. */
  function Active(fetched: ApiResponse<seq<Medication>>, now: int, parse: string -> Instant): (r: ApiResponse<seq<Medication>>)
    ensures !Fetched(fetched) ==> r == fetched
    ensures Fetched(fetched) ==> r.success && r.data.Some? && r.error.None? && r.message.None?
    ensures Fetched(fetched) ==> Sublist(r.data.value, fetched.data.value)
    ensures Fetched(fetched) ==> forall i :: 0 <= i < |r.data.value| ==> IsActive(r.data.value[i], now, parse)
    ensures Fetched(fetched) ==> forall i :: 0 <= i < |fetched.data.value| && IsActive(fetched.data.value[i], now, parse) ==>
      fetched.data.value[i] in r.data.value
  {
    Refine(fetched, xs => Filter(xs, m => IsActive(m, now, parse)))
  }

  /** An end date that does not parse compares false, so such a medication is not active. */
  lemma UnparsedEndDateInactive(m: Medication, now: int, parse: string -> Instant)
    requires m.endDate.Some? && m.endDate.value != "" && parse(m.endDate.value).NaN?
    ensures !IsActive(m, now, parse)
  {
  }

  /** `getMedicationsNeedingRefill`: exactly the unavailable medications, in fetched order. */
  function NeedingRefill(fetched: ApiResponse<seq<Medication>>): (r: ApiResponse<seq<Medication>>)
    ensures !Fetched(fetched) ==> r == fetched
    ensures Fetched(fetched) ==> r.success && r.data.Some? && r.error.None? && r.message.None?
    ensures Fetched(fetched) ==> Sublist(r.data.value, fetched.data.value)
    ensures Fetched(fetched) ==> forall i :: 0 <= i < |r.data.value| ==> !r.data.value[i].available
    ensures Fetched(fetched) ==> forall i :: 0 <= i < |fetched.data.value| && !fetched.data.value[i].available ==>
      fetched.data.value[i] in r.data.value
  {
    Refine(fetched, xs => Filter(xs, (m: Medication) => !m.available))
  }
}
