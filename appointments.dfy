/**
 * The appointment service: the CRUD calls, and the upcoming/past views
 * derived from the fetched list. The clock (`now`, in milliseconds) and date
 * parsing (`parse`, the time value of `new Date(text)`) are parameters.
 */
module Appointments {
  import opened Wrappers
  import opened Js
  import opened Text
  import opened Types
  import opened Lists
  import Config
  import Client

  /** `getAllAppointments`. */
  function GetAll(): Client.Call {
    Client.Get(Config.Path(Config.APPOINTMENTS), [])
  }

  /** `getAppointmentById(id)`. */
  function GetById(id: int): Client.Call {
    Client.Get(Config.Path(Config.APPOINTMENT_BY_ID), Client.IdParam(id))
  }

  /** `createAppointment(appointment)`. */
  function Create(appointment: Json): Client.Call {
    Client.Post(Config.Path(Config.APPOINTMENT_CREATE), appointment, [])
  }

  /** `updateAppointment(id, updates)`. */
  function Update(id: int, updates: Json): Client.Call {
    Client.Put(Config.Path(Config.APPOINTMENT_UPDATE), updates, Client.IdParam(id))
  }

  /** `deleteAppointment(id)`. */
  function Remove(id: int): Client.Call {
    Client.Delete(Config.Path(Config.APPOINTMENT_DELETE), Client.IdParam(id))
  }

  /** By-id, update and delete address `/api/appointments/<id>`, with GET, PUT (carrying the updates) and DELETE. */
  lemma ByIdTargets(id: int, baseURL: string, updates: Json)
    ensures Client.Url(baseURL, GetById(id).endpoint, GetById(id).params) == Client.Prefix(baseURL) + "/api/appointments/" + IntToString(id)
    ensures Client.Url(baseURL, Update(id, updates).endpoint, Update(id, updates).params) == Client.Prefix(baseURL) + "/api/appointments/" + IntToString(id)
    ensures Client.Url(baseURL, Remove(id).endpoint, Remove(id).params) == Client.Prefix(baseURL) + "/api/appointments/" + IntToString(id)
    ensures Update(id, updates).verb == Client.PUT && Update(id, updates).body == Some(updates)
    ensures Remove(id).verb == Client.DELETE && GetById(id).verb == Client.GET
  {
    Client.ByIdTarget(Config.APPOINTMENT_BY_ID, baseURL, id, "/api/appointments/");
    Client.ByIdTarget(Config.APPOINTMENT_UPDATE, baseURL, id, "/api/appointments/");
    Client.ByIdTarget(Config.APPOINTMENT_DELETE, baseURL, id, "/api/appointments/");
  }

  /** Create POSTs its body to `/api/appointments/create`. */
  lemma CreateTarget(baseURL: string, appointment: Json)
    ensures Create(appointment).verb == Client.POST && Create(appointment).body == Some(appointment)
    ensures Client.Url(baseURL, Create(appointment).endpoint, Create(appointment).params) == Client.Prefix(baseURL) + "/api/appointments/create"
  {
    Client.PlainUrl(baseURL, "/api/appointments/create");
  }

  /** `new Date(apt.date) >= now && apt.status !== 'completed'`. */
  predicate IsUpcoming(a: Appointment, now: int, parse: string -> Instant) {
    AtOrAfter(parse(a.date), now) && a.status != "completed"
  }

  /** `new Date(apt.date) < now || apt.status === 'completed'`. */
  predicate IsPast(a: Appointment, now: int, parse: string -> Instant) {
    Before(parse(a.date), now) || a.status == "completed"
  }

  /** `getUpcomingAppointments`: exactly the upcoming appointments, in fetched order; a failed or empty fetch is passed through. */
  function Upcoming(fetched: ApiResponse<seq<Appointment>>, now: int, parse: string -> Instant): (r: ApiResponse<seq<Appointment>>)
    ensures !Fetched(fetched) ==> r == fetched
    ensures Fetched(fetched) ==> r.success && r.data.Some? && r.error.None? && r.message.None?
    ensures Fetched(fetched) ==> Sublist(r.data.value, fetched.data.value)
    ensures Fetched(fetched) ==> forall i :: 0 <= i < |r.data.value| ==> IsUpcoming(r.data.value[i], now, parse)
    ensures Fetched(fetched) ==> forall i :: 0 <= i < |fetched.data.value| && IsUpcoming(fetched.data.value[i], now, parse) ==>
      fetched.data.value[i] in r.data.value
  {
    Refine(fetched, xs => Filter(xs, a => IsUpcoming(a, now, parse)))
  }

  /** `getPastAppointments`: exactly the past or completed appointments, in fetched order; a failed or empty fetch is passed through. */
  function Past(fetched: ApiResponse<seq<Appointment>>, now: int, parse: string -> Instant): (r: ApiResponse<seq<Appointment>>)
    ensures !Fetched(fetched) ==> r == fetched
    ensures Fetched(fetched) ==> r.success && r.data.Some? && r.error.None? && r.message.None?
    ensures Fetched(fetched) ==> Sublist(r.data.value, fetched.data.value)
    ensures Fetched(fetched) ==> forall i :: 0 <= i < |r.data.value| ==> IsPast(r.data.value[i], now, parse)
    ensures Fetched(fetched) ==> forall i :: 0 <= i < |fetched.data.value| && IsPast(fetched.data.value[i], now, parse) ==>
      fetched.data.value[i] in r.data.value
  {
    Refine(fetched, xs => Filter(xs, a => IsPast(a, now, parse)))
  }

  /** When every date parses, each fetched appointment lands in exactly one of the two views. */
  lemma UpcomingPastPartition(fetched: ApiResponse<seq<Appointment>>, now: int, parse: string -> Instant)
    requires Fetched(fetched)
    requires forall i :: 0 <= i < |fetched.data.value| ==> parse(fetched.data.value[i].date).At?
    ensures |Upcoming(fetched, now, parse).data.value| + |Past(fetched, now, parse).data.value| == |fetched.data.value|
    ensures multiset(Upcoming(fetched, now, parse).data.value) + multiset(Past(fetched, now, parse).data.value)
      == multiset(fetched.data.value)
  {
    var xs := fetched.data.value;
    FilterPartition(xs, a => IsUpcoming(a, now, parse), a => IsPast(a, now, parse));
  }

  /** An appointment whose date does not parse and that is not completed is in neither view. */
  lemma UnparsedDateInNeither(a: Appointment, now: int, parse: string -> Instant)
    requires parse(a.date).NaN? && a.status != "completed"
    ensures !IsUpcoming(a, now, parse) && !IsPast(a, now, parse)
  {
  }
}
