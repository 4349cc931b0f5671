/**
 * The session holder behind every screen: the signed-in user, the seven
 * collections, and the authenticated and loading flags, with the operations
 * that call the services and fold their answers into that state. Each
 * service's answer (or the exception it threw) is a parameter of the
 * operation that awaits it.
 */
module Data {
  import opened Wrappers
  import opened Js
  import opened Types
  import Config
  import Client
  import Users
  import Notifications
  import Medications
  import Appointments

  /** The seven answers `loadAllData` awaits together, one per collection. */
  datatype Reload = Reload(
    doctors: ApiResponse<seq<Json>>,
    appointments: ApiResponse<seq<Json>>,
    medications: ApiResponse<seq<Json>>,
    healthRecords: ApiResponse<seq<Json>>,
    notifications: ApiResponse<seq<Json>>,
    pharmacies: ApiResponse<seq<Json>>,
    emergencyContacts: ApiResponse<seq<Json>>)

  /** One collection after a reload: the fetched list when its answer succeeded with data, else what it held. */
  function Reloaded(held: seq<Json>, r: ApiResponse<seq<Json>>): (xs: seq<Json>)
    ensures Fetched(r) ==> xs == r.data.value
    ensures !Fetched(r) ==> xs == held
  {
    if Fetched(r) then r.data.value else held
  }

  /** `response.success && response.user`: the test the login applies to what the user service returned. */
  predicate LoginAccepted(v: Json) {
    Present(Field(v, "success")) && Present(Field(v, "user"))
  }

  /** `prev.map(x => x.id === id ? v : x)`: every element with that id becomes `v`; the rest stay in place. */
  function ReplaceById(xs: seq<Json>, id: int, v: Json): (r: seq<Json>)
    ensures |r| == |xs|
    ensures forall i :: 0 <= i < |xs| ==> r[i] == if HasId(xs[i], id) then v else xs[i]
  {
    seq(|xs|, i requires 0 <= i < |xs| => if HasId(xs[i], id) then v else xs[i])
  }

  /** Replacing with a value that keeps the id is idempotent, and a lookup of the id then finds the value. */
  lemma ReplaceKeepingId(xs: seq<Json>, id: int, v: Json)
    requires HasId(v, id)
    requires exists j :: 0 <= j < |xs| && HasId(xs[j], id)
    ensures ReplaceById(ReplaceById(xs, id, v), id, v) == ReplaceById(xs, id, v)
    ensures FindById(ReplaceById(xs, id, v), id) == Some(v)
  {
    var j :| 0 <= j < |xs| && HasId(xs[j], id);
    var r := ReplaceById(xs, id, v);
    assert HasId(r[j], id);
  }

  /** Replacing with a value that lacks the id loses every element that had it: a lookup no longer finds one. */
  lemma ReplaceDroppingId(xs: seq<Json>, id: int, v: Json)
    requires !HasId(v, id)
    ensures FindById(ReplaceById(xs, id, v), id).None?
    ensures |ReplaceById(xs, id, v)| == |xs|
  {
    var r := ReplaceById(xs, id, v);
    forall j | 0 <= j < |r|
      ensures !HasId(r[j], id)
    {
    }
  }

  /** The create body `addAppointment` builds: only the doctor, date, time, type and reason are forwarded. */
  function CreateRequest(a: Appointment): (body: Json)
    ensures body.Obj? && body.fields.Keys == {"doctorId", "date", "time", "type", "reason"}
    ensures Field(body, "doctorId") == Some(Num(a.doctorId)) && Field(body, "date") == Some(Str(a.date))
    ensures Field(body, "time") == Some(Str(a.time)) && Field(body, "type") == Some(Str(a.kind))
    ensures Field(body, "reason") == Some(Str(a.reason))
  {
    Obj(map["doctorId" := Num(a.doctorId), "date" := Str(a.date), "time" := Str(a.time),
            "type" := Str(a.kind), "reason" := Str(a.reason)])
  }

  /** The create body ignores the appointment's id, doctor name, specialty and status. */
  lemma CreateRequestForwardsOnly(a: Appointment, b: Appointment)
    requires a.doctorId == b.doctorId && a.date == b.date && a.time == b.time && a.kind == b.kind && a.reason == b.reason
    ensures CreateRequest(a) == CreateRequest(b)
  {
  }

  class DataProvider {
    var user: Json
    var doctors: seq<Json>
    var appointments: seq<Json>
    var medications: seq<Json>
    var healthRecords: seq<Json>
    var notifications: seq<Json>
    var pharmacies: seq<Json>
    var emergencyContacts: seq<Json>
    var isAuthenticated: bool
    var isLoading: bool

    /** The initial state: nobody signed in, every collection empty. */
    constructor ()
      ensures user == Null && !isAuthenticated && !isLoading
      ensures doctors == [] && appointments == [] && medications == [] && healthRecords == []
      ensures notifications == [] && pharmacies == [] && emergencyContacts == []
    {
      user := Null;
      doctors, appointments, medications, healthRecords := [], [], [], [];
      notifications, pharmacies, emergencyContacts := [], [], [];
      isAuthenticated, isLoading := false, false;
    }

    /** Every collection back to empty. */
    predicate Empty()
      reads this
    {
      doctors == [] && appointments == [] && medications == [] && healthRecords == []
      && notifications == [] && pharmacies == [] && emergencyContacts == []
    }

    /** `loadAllData`: each collection takes its own answer's list when that answer succeeded with data; nothing else changes. */
    method LoadAllData(res: Reload)
      modifies this
      ensures doctors == Reloaded(old(doctors), res.doctors)
      ensures appointments == Reloaded(old(appointments), res.appointments)
      ensures medications == Reloaded(old(medications), res.medications)
      ensures healthRecords == Reloaded(old(healthRecords), res.healthRecords)
      ensures notifications == Reloaded(old(notifications), res.notifications)
      ensures pharmacies == Reloaded(old(pharmacies), res.pharmacies)
      ensures emergencyContacts == Reloaded(old(emergencyContacts), res.emergencyContacts)
      ensures user == old(user) && isAuthenticated == old(isAuthenticated) && isLoading == old(isLoading)
    {
      doctors := Reloaded(doctors, res.doctors);
      appointments := Reloaded(appointments, res.appointments);
      medications := Reloaded(medications, res.medications);
      healthRecords := Reloaded(healthRecords, res.healthRecords);
      notifications := Reloaded(notifications, res.notifications);
      pharmacies := Reloaded(pharmacies, res.pharmacies);
      emergencyContacts := Reloaded(emergencyContacts, res.emergencyContacts);
    }

    /**
     * `login`: when the user service's answer passes `success && user`, the
     * user is signed in, the collections reload and the answer is true;
     * otherwise (including when the service threw) nothing but the loading
     * flag changes and the answer is false. Loading ends false either way.
     */
    method Login(answer: Completion<Json>, res: Reload) returns (ok: bool)
      modifies this
      ensures ok <==> answer.Returned? && LoginAccepted(answer.value)
      ensures ok ==>
        user == Field(answer.value, "user").value && isAuthenticated
        && doctors == Reloaded(old(doctors), res.doctors)
        && appointments == Reloaded(old(appointments), res.appointments)
        && medications == Reloaded(old(medications), res.medications)
        && healthRecords == Reloaded(old(healthRecords), res.healthRecords)
        && notifications == Reloaded(old(notifications), res.notifications)
        && pharmacies == Reloaded(old(pharmacies), res.pharmacies)
        && emergencyContacts == Reloaded(old(emergencyContacts), res.emergencyContacts)
      ensures !ok ==>
        user == old(user) && isAuthenticated == old(isAuthenticated)
        && doctors == old(doctors) && appointments == old(appointments) && medications == old(medications)
        && healthRecords == old(healthRecords) && notifications == old(notifications)
        && pharmacies == old(pharmacies) && emergencyContacts == old(emergencyContacts)
      ensures !isLoading
    {
      isLoading := true;
      ok := false;
      if answer.Returned? && LoginAccepted(answer.value) {
        user := Field(answer.value, "user").value;
        isAuthenticated := true;
        LoadAllData(res);
        ok := true;
      }
      isLoading := false;
    }

    /**
     * `logout`: only when the user service's logout returns does the state
     * reset (no user, not authenticated, every collection empty); when it
     * throws, nothing but the loading flag changes.
     */
    method Logout(answer: Completion<ApiResponse<Json>>)
      modifies this
      ensures answer.Returned? ==> user == Null && !isAuthenticated && Empty()
      ensures answer.Threw? ==>
        user == old(user) && isAuthenticated == old(isAuthenticated)
        && doctors == old(doctors) && appointments == old(appointments) && medications == old(medications)
        && healthRecords == old(healthRecords) && notifications == old(notifications)
        && pharmacies == old(pharmacies) && emergencyContacts == old(emergencyContacts)
      ensures !isLoading
    {
      isLoading := true;
      if answer.Returned? {
        user := Null;
        isAuthenticated := false;
        doctors, appointments, medications, healthRecords := [], [], [], [];
        notifications, pharmacies, emergencyContacts := [], [], [];
      }
      isLoading := false;
    }

    /**
     * `updateUser`: without a signed-in user it returns at once without
     * calling the service (`called` is false) and changes nothing; otherwise
     * a delivered answer replaces the user, and loading ends false.
     */
    method UpdateUser(answer: Completion<ApiResponse<Json>>) returns (called: bool)
      modifies this
      ensures called <==> Truthy(old(user))
      ensures !called ==> user == old(user) && isLoading == old(isLoading)
      ensures called ==>
        !isLoading && user == (if answer.Returned? && Delivered(answer.value) then answer.value.data.value else old(user))
      ensures isAuthenticated == old(isAuthenticated)
      ensures doctors == old(doctors) && appointments == old(appointments) && medications == old(medications)
      ensures healthRecords == old(healthRecords) && notifications == old(notifications)
      ensures pharmacies == old(pharmacies) && emergencyContacts == old(emergencyContacts)
    {
      if !Truthy(user) {
        return false;
      }
      called := true;
      isLoading := true;
      if answer.Returned? && Delivered(answer.value) {
        user := answer.value.data.value;
      }
      isLoading := false;
    }

    /** `getDoctorById`: the first loaded doctor with that id, or undefined when none has it. */
    function DoctorById(id: int): (r: Option<Json>)
      reads this
      ensures r.Some? <==> exists j :: 0 <= j < |doctors| && HasId(doctors[j], id)
      ensures r.Some? ==> HasId(r.value, id) && r.value in doctors
    {
      FindById(doctors, id)
    }

    /** `markNotificationAsRead`: issues the mark-as-read call; a delivered answer replaces every notification with that id. */
    method MarkNotificationAsRead(id: int, answer: ApiResponse<Json>) returns (call: Client.Call)
      modifies this
      ensures call == Notifications.MarkAsRead(id)
      ensures notifications == if Delivered(answer) then ReplaceById(old(notifications), id, answer.data.value) else old(notifications)
      ensures user == old(user) && isAuthenticated == old(isAuthenticated) && isLoading == old(isLoading)
      ensures doctors == old(doctors) && appointments == old(appointments) && medications == old(medications)
      ensures healthRecords == old(healthRecords) && pharmacies == old(pharmacies) && emergencyContacts == old(emergencyContacts)
    {
      call := Notifications.MarkAsRead(id);
      if Delivered(answer) {
        notifications := ReplaceById(notifications, id, answer.data.value);
      }
    }

    /** `markMedicationAsTaken`: issues the mark-as-taken call; a delivered answer replaces every medication with that id. */
    method MarkMedicationAsTaken(medicationId: int, date: string, time: string, answer: ApiResponse<Json>) returns (call: Client.Call)
      modifies this
      ensures call == Medications.MarkAsTaken(medicationId, date, time)
      ensures medications == if Delivered(answer) then ReplaceById(old(medications), medicationId, answer.data.value) else old(medications)
      ensures user == old(user) && isAuthenticated == old(isAuthenticated) && isLoading == old(isLoading)
      ensures doctors == old(doctors) && appointments == old(appointments) && healthRecords == old(healthRecords)
      ensures notifications == old(notifications) && pharmacies == old(pharmacies) && emergencyContacts == old(emergencyContacts)
    {
      call := Medications.MarkAsTaken(medicationId, date, time);
      if Delivered(answer) {
        medications := ReplaceById(medications, medicationId, answer.data.value);
      }
    }

    /** `addAppointment`: creates from the five forwarded fields; a delivered answer is appended at the end. */
    method AddAppointment(a: Appointment, answer: Completion<ApiResponse<Json>>) returns (call: Client.Call)
      modifies this
      ensures call == Appointments.Create(CreateRequest(a))
      ensures appointments ==
        if answer.Returned? && Delivered(answer.value) then old(appointments) + [answer.value.data.value] else old(appointments)
      ensures !isLoading && user == old(user) && isAuthenticated == old(isAuthenticated)
      ensures doctors == old(doctors) && medications == old(medications) && healthRecords == old(healthRecords)
      ensures notifications == old(notifications) && pharmacies == old(pharmacies) && emergencyContacts == old(emergencyContacts)
    {
      isLoading := true;
      call := Appointments.Create(CreateRequest(a));
      if answer.Returned? && Delivered(answer.value) {
        appointments := appointments + [answer.value.data.value];
      }
      isLoading := false;
    }

    /** `updateAppointment`: issues the update call; a delivered answer replaces every appointment with that id. */
    method UpdateAppointment(id: int, updates: Json, answer: Completion<ApiResponse<Json>>) returns (call: Client.Call)
      modifies this
      ensures call == Appointments.Update(id, updates)
      ensures appointments ==
        if answer.Returned? && Delivered(answer.value) then ReplaceById(old(appointments), id, answer.value.data.value)
        else old(appointments)
      ensures !isLoading && user == old(user) && isAuthenticated == old(isAuthenticated)
      ensures doctors == old(doctors) && medications == old(medications) && healthRecords == old(healthRecords)
      ensures notifications == old(notifications) && pharmacies == old(pharmacies) && emergencyContacts == old(emergencyContacts)
    {
      isLoading := true;
      call := Appointments.Update(id, updates);
      if answer.Returned? && Delivered(answer.value) {
        appointments := ReplaceById(appointments, id, answer.value.data.value);
      }
      isLoading := false;
    }

    /** The mount-time check: a delivered `getUser` answer signs the user in and reloads the collections. */
    method CheckAuth(answer: Completion<ApiResponse<Json>>, res: Reload)
      modifies this
      ensures answer.Returned? && Delivered(answer.value) ==>
        user == answer.value.data.value && isAuthenticated
        && doctors == Reloaded(old(doctors), res.doctors)
        && appointments == Reloaded(old(appointments), res.appointments)
        && medications == Reloaded(old(medications), res.medications)
        && healthRecords == Reloaded(old(healthRecords), res.healthRecords)
        && notifications == Reloaded(old(notifications), res.notifications)
        && pharmacies == Reloaded(old(pharmacies), res.pharmacies)
        && emergencyContacts == Reloaded(old(emergencyContacts), res.emergencyContacts)
      ensures !(answer.Returned? && Delivered(answer.value)) ==>
        user == old(user) && isAuthenticated == old(isAuthenticated)
        && doctors == old(doctors) && appointments == old(appointments) && medications == old(medications)
        && healthRecords == old(healthRecords) && notifications == old(notifications)
        && pharmacies == old(pharmacies) && emergencyContacts == old(emergencyContacts)
      ensures !isLoading
    {
      isLoading := true;
      if answer.Returned? && Delivered(answer.value) {
        user := answer.value.data.value;
        isAuthenticated := true;
        LoadAllData(res);
      }
      isLoading := false;
    }
  }

  // ---------------------------------------------------------------- local login, as written and as intended

  /**
   * In local mode, valid credentials get the mock payload, which the user
   * service hands back verbatim; it has no `success` field, so the login
   * test rejects it.
   */
  lemma LocalLoginRejected(credentials: Json, fx: Client.Fixture, now: int)
    requires Present(Field(credentials, "email")) && Present(Field(credentials, "password"))
    ensures var r := Client.LocalResponse(Client.Post(Config.Path(Config.USER_LOGIN), credentials, []), fx, now);
      r.success && !LoginAccepted(Users.AuthOutcome(r, "Login failed"))
  {
    Client.LocalLogin(credentials, fx, now);
    var r := Client.LocalResponse(Client.Post(Config.Path(Config.USER_LOGIN), credentials, []), fx, now);
    assert r.data == Some(Client.MockLogin(fx, now));
    assert "success" !in Client.MockLogin(fx, now).fields;
  }

  /** With the flag added as intended, a local login is accepted exactly when the credentials pass and the fixture user is truthy. */
  lemma LocalLoginAcceptedCorrected(credentials: Json, fx: Client.Fixture, now: int)
    ensures var r := Client.LocalResponse(Client.Post(Config.Path(Config.USER_LOGIN), credentials, []), fx, now);
      (LoginAccepted(Users.AuthOutcomeCorrected(r, "Login failed"))
       <==> Present(Field(credentials, "email")) && Present(Field(credentials, "password")) && Truthy(fx.user))
  {
    Client.LocalLogin(credentials, fx, now);
    var r := Client.LocalResponse(Client.Post(Config.Path(Config.USER_LOGIN), credentials, []), fx, now);
    if r.success {
      assert r.data == Some(Client.MockLogin(fx, now));
      assert Delivered(r);
    } else {
      Users.AuthFailureMessage(r, "Login failed");
    }
  }

  // ---------------------------------------------------------------- local mark-as-read, as written and as intended

  /**
   * In local mode the mark-as-read template is not in the dispatcher, so the
   * empty request body comes back as the "updated" notification, and the
   * splice replaces the notification with `{}`: a lookup of its id fails.
   */
  lemma LocalMarkReadDropsNotification(xs: seq<Json>, id: int, fx: Client.Fixture, now: int)
    ensures var r := Client.LocalResponse(Notifications.MarkAsRead(id), fx, now);
      Delivered(r) && r.data.value == Obj(map[])
      && FindById(ReplaceById(xs, id, r.data.value), id).None?
  {
    Client.RouteOfMarkRead();
    var call := Notifications.MarkAsRead(id);
    assert call.body == Some(Obj(map[]));
    assert Client.LocalResponse(call, fx, now) == ApiResponse(true, Some(Obj(map[])), None, None);
    ReplaceDroppingId(xs, id, Obj(map[]));
  }

  /** `{...n, read: true}`. */
  function MarkedRead(n: Json): (m: Json)
    ensures n.Obj? ==> Field(m, "read") == Some(Bool(true))
    ensures n.Obj? ==> forall k :: k != "read" ==> Field(m, k) == Field(n, k)
  {
    if n.Obj? then Obj(n.fields["read" := Bool(true)]) else n
  }

  /** A local mark-as-read as intended: the fixture notification with `read` set, or a failure when no notification has the id. */
  function LocalMarkReadCorrected(fx: Client.Fixture, id: int): (r: ApiResponse<Json>)
    ensures r.success <==> FindById(fx.notifications, id).Some?
  {
    match FindById(fx.notifications, id)
    case Some(n) => Ok(MarkedRead(n))
    case None => Failure(Str("Notification not found"))
  }

  /** With the intended answer, the splice keeps the notification, now read, under the same id. */
  lemma LocalMarkReadCorrectedKeeps(fx: Client.Fixture, id: int)
    requires exists j :: 0 <= j < |fx.notifications| && HasId(fx.notifications[j], id)
    ensures var r := LocalMarkReadCorrected(fx, id);
      Delivered(r)
      && FindById(ReplaceById(fx.notifications, id, r.data.value), id) == Some(r.data.value)
      && Field(r.data.value, "read") == Some(Bool(true))
  {
    var n := FindById(fx.notifications, id).value;
    assert n.Obj?;
    var m := MarkedRead(n);
    assert Field(m, "id") == Field(n, "id");
    ReplaceKeepingId(fx.notifications, id, m);
  }
}
