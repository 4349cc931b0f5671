/**
 * The API client: URL templating, the bundled-fixture dispatcher used when
 * the base URL is the "local" sentinel, the remote request with its header
 * and body decisions, and the mapping of every outcome onto the
 * `ApiResponse` envelope. `fetch` is an abstract outcome handed in by the
 * caller; the clock is the `now` parameter.
 */
module Client {
  import opened Wrappers
  import opened Js
  import opened Text
  import opened Types
  import Config

  datatype Verb = GET | POST | PUT | PATCH | DELETE

  /**
   * One call of `request`: the verb, the endpoint template, the body (None
   * for `undefined`) and the URL parameters in key order.
   */
  datatype Call = Call(verb: Verb, endpoint: string, body: Option<Json>, params: seq<(string, string)>)

  /** `apiClient.get(endpoint, urlParams)`. */
  function Get(endpoint: string, params: seq<(string, string)>): Call {
    Call(GET, endpoint, None, params)
  }

  /** `apiClient.post(endpoint, data, urlParams)`. */
  function Post(endpoint: string, data: Json, params: seq<(string, string)>): Call {
    Call(POST, endpoint, Some(data), params)
  }

  /** `apiClient.put(endpoint, data, urlParams)`. */
  function Put(endpoint: string, data: Json, params: seq<(string, string)>): Call {
    Call(PUT, endpoint, Some(data), params)
  }

  /** `apiClient.patch(endpoint, data, urlParams)`. */
  function Patch(endpoint: string, data: Json, params: seq<(string, string)>): Call {
    Call(PATCH, endpoint, Some(data), params)
  }

  /** `apiClient.delete(endpoint, urlParams)`. */
  function Delete(endpoint: string, params: seq<(string, string)>): Call {
    Call(DELETE, endpoint, None, params)
  }

  /** `{ id: id.toString() }`, the parameter record every by-id call passes. */
  function IdParam(id: int): seq<(string, string)> {
    [("id", IntToString(id))]
  }

  // ---------------------------------------------------------------- URLs

  /**
   * The path after `buildUrl`'s loop: for each key in order, the first
   * occurrence of `':' + key` is replaced by its value.
   */
  function Substitute(template: string, params: seq<(string, string)>): string
    decreases |params|
  {
    if params == [] then template
    else
      var last := params[|params| - 1];
      ReplaceFirst(Substitute(template, params[..|params| - 1]), ":" + last.0, last.1)
  }

  /** The URL `buildUrl` returns: the path alone in local mode, else the base URL followed by the path. */
  function Url(baseURL: string, endpoint: string, params: seq<(string, string)>): string {
    var path := Substitute(endpoint, params);
    if baseURL == Config.LOCAL_MODE then path else baseURL + path
  }

  /** A placeholder whose key is not among the parameters stays verbatim: with no key occurring, nothing changes. */
  lemma {:induction false} SubstituteUnmatched(template: string, params: seq<(string, string)>)
    requires forall i :: 0 <= i < |params| ==> !Contains(template, ":" + params[i].0)
    ensures Substitute(template, params) == template
  {
    if params != [] {
      var init := params[..|params| - 1];
      SubstituteUnmatched(template, init);
      var last := params[|params| - 1];
      assert !Contains(template, ":" + last.0);
    }
  }

  /** Substituting an id into `pre + ":id" + post`, where `pre` has no ':', puts the value in the placeholder's place. */
  lemma SubstituteId(pre: string, post: string, value: string)
    requires Config.ColonFree(pre)
    ensures Substitute(pre + ":id" + post, [("id", value)]) == pre + value + post
  {
    var params := [("id", value)];
    assert params[..0] == [];
    assert ":" + "id" == ":id";
    assert pre + ":id" + post == pre + ":" + "id" + post;
    ReplaceAfterColonFree(pre, "id", post, value);
  }

  /** What `buildUrl` puts before the path: nothing in local mode, else the base URL. */
  function Prefix(baseURL: string): string {
    if baseURL == Config.LOCAL_MODE then "" else baseURL
  }

  /** Whatever the parameters, the URL is the prefix followed by the substituted template. */
  lemma UrlIsPrefixed(baseURL: string, template: string, params: seq<(string, string)>)
    ensures Url(baseURL, template, params) == Prefix(baseURL) + Substitute(template, params)
  {
  }

  /** Regrouping the four pieces of a built URL. */
  lemma Regroup(head: string, pre: string, digits: string, post: string)
    ensures head + (pre + digits + post) == head + pre + digits + post
  {
  }

  /** Building a URL from `pre + ":id" + post` with an id puts the id's digits between the halves. */
  lemma UrlOfSplit(baseURL: string, id: int, pre: string, post: string)
    requires Config.ColonFree(pre)
    ensures Url(baseURL, pre + ":id" + post, IdParam(id)) == Prefix(baseURL) + pre + IntToString(id) + post
  {
    var digits := IntToString(id);
    UrlIsPrefixed(baseURL, pre + ":id" + post, IdParam(id));
    SubstituteId(pre, post, digits);
    Regroup(Prefix(baseURL), pre, digits, post);
  }

  /** A by-id call of any templated endpoint builds `pre + id + post` from the template's two halves. */
  lemma ByIdUrl(e: Config.Endpoint, baseURL: string, id: int)
    requires Config.IdSplit(e).Some?
    ensures var (pre, post) := Config.IdSplit(e).value;
      Url(baseURL, Config.Path(e), IdParam(id)) == Prefix(baseURL) + pre + IntToString(id) + post
  {
    var split := Config.IdSplit(e).value;
    UrlOfSplit(baseURL, id, split.0, split.1);
  }

  /** Without parameters the URL is the template itself behind the prefix. */
  lemma PlainUrl(baseURL: string, template: string)
    ensures Url(baseURL, template, []) == Prefix(baseURL) + template
  {
  }

  /** A by-id call of a template split as `pre`, `:id`, `post` addresses `pre`, the id, then `post`. */
  lemma ByIdTargetWithin(e: Config.Endpoint, baseURL: string, id: int, pre: string, post: string)
    requires Config.IdSplit(e) == Some((pre, post))
    ensures Url(baseURL, Config.Path(e), IdParam(id)) == Prefix(baseURL) + pre + IntToString(id) + post
  {
    ByIdUrl(e, baseURL, id);
  }

  /** A by-id call of a template that ends in `:id` addresses `pre` followed by the id. */
  lemma ByIdTarget(e: Config.Endpoint, baseURL: string, id: int, pre: string)
    requires Config.IdSplit(e) == Some((pre, ""))
    ensures Url(baseURL, Config.Path(e), IdParam(id)) == Prefix(baseURL) + pre + IntToString(id)
  {
    ByIdUrl(e, baseURL, id);
    assert Prefix(baseURL) + pre + IntToString(id) + "" == Prefix(baseURL) + pre + IntToString(id);
  }

  // ---------------------------------------------------------------- local mode

  /** The bundled data file, one sequence per collection. */
  datatype Fixture = Fixture(
    user: Json,
    doctors: seq<Json>,
    appointments: seq<Json>,
    medications: seq<Json>,
    healthRecords: seq<Json>,
    notifications: seq<Json>,
    pharmacies: seq<Json>,
    emergencyContacts: seq<Json>)

  /** The stand-in used when the data file cannot be loaded: a demo user and empty collections. */
  const MOCK_FIXTURE: Fixture := Fixture(
    Obj(map["id" := Num(1), "fullName" := Str("Demo User"), "email" := Str("demo@example.com")]),
    [], [], [], [], [], [], [])

  /** What `loadUserData` settles on: the bundled file when it loads (`bundled` is Some), else the mock. */
  function LoadedFixture(bundled: Option<Fixture>): Fixture {
    if bundled.Some? then bundled.value else MOCK_FIXTURE
  }

  /** `urlParams?.[key]`. */
  function Param(params: seq<(string, string)>, key: string): (r: Option<string>)
    ensures r.None? <==> forall i :: 0 <= i < |params| ==> params[i].0 != key
    ensures r.Some? ==> exists i :: 0 <= i < |params| && params[i] == (key, r.value)
  {
    if params == [] then None
    else if params[0].0 == key then Some(params[0].1)
    else
      var r := Param(params[1..], key);
      assert forall i :: 1 <= i < |params| ==> params[i] == params[1..][i - 1];
      r
  }

  /**
   * The local by-id doctor lookup: the first doctor whose id is
   * `parseInt(id || '0')`; NaN matches no doctor.
   */
  function LocalDoctor(doctors: seq<Json>, id: Option<string>): Option<Json> {
    var text := if id.None? || id.value == "" then "0" else id.value;
    match ParseInt(text)
    case None => None
    case Some(n) => FindById(doctors, n)
  }

  /** The templates the local dispatcher answers itself. */
  predicate Registered(endpoint: string) {
    endpoint in {
      Config.Path(Config.USER), Config.Path(Config.DOCTORS), Config.Path(Config.DOCTOR_BY_ID),
      Config.Path(Config.APPOINTMENTS), Config.Path(Config.MEDICATIONS), Config.Path(Config.HEALTH_RECORDS),
      Config.Path(Config.NOTIFICATIONS), Config.Path(Config.PHARMACIES), Config.Path(Config.EMERGENCY_CONTACTS),
      Config.Path(Config.USER_LOGIN), Config.Path(Config.FEEDBACK_SUBMIT), Config.Path(Config.FEEDBACK_LIST)}
  }

  /** The arms of the local dispatcher's switch; `Echo` is its default arm. */
  datatype Route =
    | UserRoute | DoctorsRoute | DoctorByIdRoute | AppointmentsRoute | MedicationsRoute
    | HealthRecordsRoute | NotificationsRoute | PharmaciesRoute | EmergencyContactsRoute
    | LoginRoute | FeedbackSubmitRoute | FeedbackListRoute | Echo

  /** The switch on the endpoint template (never on the built URL). */
  function RouteOf(e: string): Route {
    if e == Config.Path(Config.USER) then UserRoute
    else if e == Config.Path(Config.DOCTORS) then DoctorsRoute
    else if e == Config.Path(Config.DOCTOR_BY_ID) then DoctorByIdRoute
    else if e == Config.Path(Config.APPOINTMENTS) then AppointmentsRoute
    else if e == Config.Path(Config.MEDICATIONS) then MedicationsRoute
    else if e == Config.Path(Config.HEALTH_RECORDS) then HealthRecordsRoute
    else if e == Config.Path(Config.NOTIFICATIONS) then NotificationsRoute
    else if e == Config.Path(Config.PHARMACIES) then PharmaciesRoute
    else if e == Config.Path(Config.EMERGENCY_CONTACTS) then EmergencyContactsRoute
    else if e == Config.Path(Config.USER_LOGIN) then LoginRoute
    else if e == Config.Path(Config.FEEDBACK_SUBMIT) then FeedbackSubmitRoute
    else if e == Config.Path(Config.FEEDBACK_LIST) then FeedbackListRoute
    else Echo
  }

  /** The local login payload: a mock token stamped with the clock, and the fixture user. */
  function MockLogin(fx: Fixture, now: int): Json {
    Obj(map["token" := Str("mock_token_" + IntToString(now)), "user" := fx.user])
  }

  /** `handleLocalRequest` once the fixture is loaded. */
  function LocalResponse(call: Call, fx: Fixture, now: int): ApiResponse<Json> {
    match RouteOf(call.endpoint)
    case UserRoute => Ok(fx.user)
    case DoctorsRoute => Ok(Arr(fx.doctors))
    case DoctorByIdRoute => ApiResponse(true, LocalDoctor(fx.doctors, Param(call.params, "id")), None, None)
    case AppointmentsRoute => Ok(Arr(fx.appointments))
    case MedicationsRoute => Ok(Arr(fx.medications))
    case HealthRecordsRoute => Ok(Arr(fx.healthRecords))
    case NotificationsRoute => Ok(Arr(fx.notifications))
    case PharmaciesRoute => Ok(Arr(fx.pharmacies))
    case EmergencyContactsRoute => Ok(Arr(fx.emergencyContacts))
    case LoginRoute =>
      if Present(OptField(call.body, "email")) && Present(OptField(call.body, "password")) then
        Ok(MockLogin(fx, now))
      else Failure(Str("Invalid credentials"))
    case FeedbackSubmitRoute =>
      Ok(Obj(map["id" := Str("local_feedback_" + IntToString(now)),
                 "message" := Str("Feedback submitted successfully (local mode)")]))
    case FeedbackListRoute => Ok(Arr([]))
    case Echo => ApiResponse(true, call.body, None, None)
  }

  // One lemma per arm keeps each string comparison chain small.

  lemma RouteOfUser()
    ensures RouteOf(Config.Path(Config.USER)) == UserRoute
  {
    Config.OwnTemplate(Config.USER);
  }

  lemma RouteOfDoctors()
    ensures RouteOf(Config.Path(Config.DOCTORS)) == DoctorsRoute
  {
    var e := Config.Path(Config.DOCTORS);
    Config.OwnTemplate(Config.DOCTORS);
    assert e != Config.Path(Config.USER);
  }

  lemma RouteOfDoctorById()
    ensures RouteOf(Config.Path(Config.DOCTOR_BY_ID)) == DoctorByIdRoute
  {
    var e := Config.Path(Config.DOCTOR_BY_ID);
    Config.OwnTemplate(Config.DOCTOR_BY_ID);
    assert e != Config.Path(Config.USER);
    assert e != Config.Path(Config.DOCTORS);
  }

  lemma RouteOfAppointments()
    ensures RouteOf(Config.Path(Config.APPOINTMENTS)) == AppointmentsRoute
  {
    var e := Config.Path(Config.APPOINTMENTS);
    Config.OwnTemplate(Config.APPOINTMENTS);
    assert e != Config.Path(Config.USER);
    assert e != Config.Path(Config.DOCTORS);
    assert e != Config.Path(Config.DOCTOR_BY_ID);
  }

  lemma RouteOfMedications()
    ensures RouteOf(Config.Path(Config.MEDICATIONS)) == MedicationsRoute
  {
    var e := Config.Path(Config.MEDICATIONS);
    Config.OwnTemplate(Config.MEDICATIONS);
    assert e != Config.Path(Config.USER);
    assert e != Config.Path(Config.DOCTORS);
    assert e != Config.Path(Config.DOCTOR_BY_ID);
    assert e != Config.Path(Config.APPOINTMENTS);
  }

  lemma RouteOfHealthRecords()
    ensures RouteOf(Config.Path(Config.HEALTH_RECORDS)) == HealthRecordsRoute
  {
    var e := Config.Path(Config.HEALTH_RECORDS);
    Config.OwnTemplate(Config.HEALTH_RECORDS);
    assert e != Config.Path(Config.USER);
    assert e != Config.Path(Config.DOCTORS);
    assert e != Config.Path(Config.DOCTOR_BY_ID);
    assert e != Config.Path(Config.APPOINTMENTS);
    assert e != Config.Path(Config.MEDICATIONS);
  }

  lemma RouteOfNotifications()
    ensures RouteOf(Config.Path(Config.NOTIFICATIONS)) == NotificationsRoute
  {
    var e := Config.Path(Config.NOTIFICATIONS);
    Config.OwnTemplate(Config.NOTIFICATIONS);
    assert e != Config.Path(Config.USER);
    assert e != Config.Path(Config.DOCTORS);
    assert e != Config.Path(Config.DOCTOR_BY_ID);
    assert e != Config.Path(Config.APPOINTMENTS);
    assert e != Config.Path(Config.MEDICATIONS);
    assert e != Config.Path(Config.HEALTH_RECORDS);
  }

  lemma RouteOfPharmacies()
    ensures RouteOf(Config.Path(Config.PHARMACIES)) == PharmaciesRoute
  {
    var e := Config.Path(Config.PHARMACIES);
    Config.OwnTemplate(Config.PHARMACIES);
    assert e != Config.Path(Config.USER);
    assert e != Config.Path(Config.DOCTORS);
    assert e != Config.Path(Config.DOCTOR_BY_ID);
    assert e != Config.Path(Config.APPOINTMENTS);
    assert e != Config.Path(Config.MEDICATIONS);
    assert e != Config.Path(Config.HEALTH_RECORDS);
    assert e != Config.Path(Config.NOTIFICATIONS);
  }

  lemma RouteOfEmergencyContacts()
    ensures RouteOf(Config.Path(Config.EMERGENCY_CONTACTS)) == EmergencyContactsRoute
  {
    var e := Config.Path(Config.EMERGENCY_CONTACTS);
    Config.OwnTemplate(Config.EMERGENCY_CONTACTS);
    assert e != Config.Path(Config.USER);
    assert e != Config.Path(Config.DOCTORS);
    assert e != Config.Path(Config.DOCTOR_BY_ID);
    assert e != Config.Path(Config.APPOINTMENTS);
    assert e != Config.Path(Config.MEDICATIONS);
    assert e != Config.Path(Config.HEALTH_RECORDS);
    assert e != Config.Path(Config.NOTIFICATIONS);
    assert e != Config.Path(Config.PHARMACIES);
  }

  lemma RouteOfLogin()
    ensures RouteOf(Config.Path(Config.USER_LOGIN)) == LoginRoute
  {
    var e := Config.Path(Config.USER_LOGIN);
    Config.OwnTemplate(Config.USER_LOGIN);
    assert e != Config.Path(Config.USER);
    assert e != Config.Path(Config.DOCTORS);
    assert e != Config.Path(Config.DOCTOR_BY_ID);
    assert e != Config.Path(Config.APPOINTMENTS);
    assert e != Config.Path(Config.MEDICATIONS);
    assert e != Config.Path(Config.HEALTH_RECORDS);
    assert e != Config.Path(Config.NOTIFICATIONS);
    assert e != Config.Path(Config.PHARMACIES);
    assert e != Config.Path(Config.EMERGENCY_CONTACTS);
  }

  lemma RouteOfFeedbackSubmit()
    ensures RouteOf(Config.Path(Config.FEEDBACK_SUBMIT)) == FeedbackSubmitRoute
  {
    var e := Config.Path(Config.FEEDBACK_SUBMIT);
    Config.OwnTemplate(Config.FEEDBACK_SUBMIT);
    assert e != Config.Path(Config.USER);
    assert e != Config.Path(Config.DOCTORS);
    assert e != Config.Path(Config.DOCTOR_BY_ID);
    assert e != Config.Path(Config.APPOINTMENTS);
    assert e != Config.Path(Config.MEDICATIONS);
    assert e != Config.Path(Config.HEALTH_RECORDS);
    assert e != Config.Path(Config.NOTIFICATIONS);
    assert e != Config.Path(Config.PHARMACIES);
    assert e != Config.Path(Config.EMERGENCY_CONTACTS);
    assert e != Config.Path(Config.USER_LOGIN);
  }

  lemma RouteOfFeedbackList()
    ensures RouteOf(Config.Path(Config.FEEDBACK_LIST)) == FeedbackListRoute
  {
    var e := Config.Path(Config.FEEDBACK_LIST);
    Config.OwnTemplate(Config.FEEDBACK_LIST);
    assert e != Config.Path(Config.USER);
    assert e != Config.Path(Config.DOCTORS);
    assert e != Config.Path(Config.DOCTOR_BY_ID);
    assert e != Config.Path(Config.APPOINTMENTS);
    assert e != Config.Path(Config.MEDICATIONS);
    assert e != Config.Path(Config.HEALTH_RECORDS);
    assert e != Config.Path(Config.NOTIFICATIONS);
    assert e != Config.Path(Config.PHARMACIES);
    assert e != Config.Path(Config.EMERGENCY_CONTACTS);
    assert e != Config.Path(Config.USER_LOGIN);
    assert e != Config.Path(Config.FEEDBACK_SUBMIT);
  }

  /** Every template the dispatcher lists reaches its own arm of the switch. */
  lemma RegisteredRoutes()
    ensures RouteOf(Config.Path(Config.USER)) == UserRoute
    ensures RouteOf(Config.Path(Config.DOCTORS)) == DoctorsRoute
    ensures RouteOf(Config.Path(Config.DOCTOR_BY_ID)) == DoctorByIdRoute
    ensures RouteOf(Config.Path(Config.APPOINTMENTS)) == AppointmentsRoute
    ensures RouteOf(Config.Path(Config.MEDICATIONS)) == MedicationsRoute
    ensures RouteOf(Config.Path(Config.HEALTH_RECORDS)) == HealthRecordsRoute
    ensures RouteOf(Config.Path(Config.NOTIFICATIONS)) == NotificationsRoute
    ensures RouteOf(Config.Path(Config.PHARMACIES)) == PharmaciesRoute
    ensures RouteOf(Config.Path(Config.EMERGENCY_CONTACTS)) == EmergencyContactsRoute
    ensures RouteOf(Config.Path(Config.USER_LOGIN)) == LoginRoute
    ensures RouteOf(Config.Path(Config.FEEDBACK_SUBMIT)) == FeedbackSubmitRoute
    ensures RouteOf(Config.Path(Config.FEEDBACK_LIST)) == FeedbackListRoute
  {
    RouteOfUser();
    RouteOfDoctors();
    RouteOfDoctorById();
    RouteOfAppointments();
    RouteOfMedications();
    RouteOfHealthRecords();
    RouteOfNotifications();
    RouteOfPharmacies();
    RouteOfEmergencyContacts();
    RouteOfLogin();
    RouteOfFeedbackSubmit();
    RouteOfFeedbackList();
  }

  /** Every collection endpoint answers with success and exactly its fixture field, whatever the call carries. */
  lemma LocalCollections(call: Call, fx: Fixture, now: int)
    ensures call.endpoint == Config.Path(Config.USER) ==> LocalResponse(call, fx, now) == Ok(fx.user)
    ensures call.endpoint == Config.Path(Config.DOCTORS) ==> LocalResponse(call, fx, now) == Ok(Arr(fx.doctors))
    ensures call.endpoint == Config.Path(Config.APPOINTMENTS) ==> LocalResponse(call, fx, now) == Ok(Arr(fx.appointments))
    ensures call.endpoint == Config.Path(Config.MEDICATIONS) ==> LocalResponse(call, fx, now) == Ok(Arr(fx.medications))
    ensures call.endpoint == Config.Path(Config.HEALTH_RECORDS) ==> LocalResponse(call, fx, now) == Ok(Arr(fx.healthRecords))
    ensures call.endpoint == Config.Path(Config.NOTIFICATIONS) ==> LocalResponse(call, fx, now) == Ok(Arr(fx.notifications))
    ensures call.endpoint == Config.Path(Config.PHARMACIES) ==> LocalResponse(call, fx, now) == Ok(Arr(fx.pharmacies))
    ensures call.endpoint == Config.Path(Config.EMERGENCY_CONTACTS) ==> LocalResponse(call, fx, now) == Ok(Arr(fx.emergencyContacts))
  {
    RouteOfUser();
    RouteOfDoctors();
    RouteOfAppointments();
    RouteOfMedications();
    RouteOfHealthRecords();
    RouteOfNotifications();
    RouteOfPharmacies();
    RouteOfEmergencyContacts();
  }

  /** Mark-as-read has no arm of its own: it falls through to the echoing default. */
  lemma RouteOfMarkRead()
    ensures RouteOf(Config.Path(Config.NOTIFICATION_MARK_READ)) == Echo
  {
    var e := Config.Path(Config.NOTIFICATION_MARK_READ);
    Config.OwnTemplate(Config.NOTIFICATION_MARK_READ);
    assert e != Config.Path(Config.USER);
    assert e != Config.Path(Config.DOCTORS);
    assert e != Config.Path(Config.DOCTOR_BY_ID);
    assert e != Config.Path(Config.APPOINTMENTS);
    assert e != Config.Path(Config.MEDICATIONS);
    assert e != Config.Path(Config.HEALTH_RECORDS);
    assert e != Config.Path(Config.NOTIFICATIONS);
    assert e != Config.Path(Config.PHARMACIES);
    assert e != Config.Path(Config.EMERGENCY_CONTACTS);
    assert e != Config.Path(Config.USER_LOGIN);
    assert e != Config.Path(Config.FEEDBACK_SUBMIT);
    assert e != Config.Path(Config.FEEDBACK_LIST);
  }

  /** The local by-id doctor call finds the first fixture doctor with that id, or carries no data. */
  lemma LocalDoctorById(fx: Fixture, now: int, id: int)
    ensures LocalResponse(Get(Config.Path(Config.DOCTOR_BY_ID), IdParam(id)), fx, now)
      == ApiResponse(true, FindById(fx.doctors, id), None, None)
  {
    RouteOfDoctorById();
    var text := IntToString(id);
    assert Param(IdParam(id), "id") == Some(text);
    assert text != "" by {
      if id >= 0 { assert |NatToString(id)| >= 1; }
    }
    ParseIntRoundTrip(id);
    assert LocalDoctor(fx.doctors, Some(text)) == FindById(fx.doctors, id);
  }

  /** Local login succeeds with `{token, user}` exactly when email and password are both truthy. */
  lemma LocalLogin(body: Json, fx: Fixture, now: int)
    ensures var r := LocalResponse(Post(Config.Path(Config.USER_LOGIN), body, []), fx, now);
      (r.success <==> Present(Field(body, "email")) && Present(Field(body, "password")))
      && (r.success ==> r.data == Some(MockLogin(fx, now)) && r.error.None?)
      && (!r.success ==> r.data.None? && r.error == Some(Str("Invalid credentials")))
  {
    RouteOfLogin();
  }

  /** A template the dispatcher does not know answers success with the request body as data. */
  lemma LocalEcho(call: Call, fx: Fixture, now: int)
    requires !Registered(call.endpoint)
    ensures LocalResponse(call, fx, now) == ApiResponse(true, call.body, None, None)
  {
  }

  // ---------------------------------------------------------------- remote mode

  /** What `fetch` did: it rejected, or it resolved with the `ok` flag and the parsed JSON body. */
  datatype FetchOutcome = Rejected(reason: Exception) | Responded(ok: bool, body: Json)

  /**
   * The request `fetch` receives: verb, URL, the Content-Type header, the
   * token behind `Bearer ` in the Authorization header (None: no header),
   * the JSON body (None: no body) and the abort timeout.
   */
  datatype Outgoing = Outgoing(verb: Verb, url: string, contentType: string, bearer: Option<Json>, body: Option<Json>, timeoutMs: int)

  /** The verbs that may carry a body. */
  predicate CarriesBody(v: Verb) {
    v == POST || v == PUT || v == PATCH
  }

  /** The request `request` sends in remote mode. */
  function OutgoingFor(call: Call, baseURL: string, authToken: Json): Outgoing {
    Outgoing(
      call.verb,
      Url(baseURL, call.endpoint, call.params),
      "application/json",
      if Truthy(authToken) then Some(authToken) else None,
      if Present(call.body) && CarriesBody(call.verb) then call.body else None,
      Config.TIMEOUT)
  }

  /** The header and body decisions, stated from the caller's side. */
  lemma OutgoingHeaders(call: Call, baseURL: string, authToken: Json)
    ensures var o := OutgoingFor(call, baseURL, authToken);
      o.contentType == "application/json" && o.timeoutMs == 10000 && o.verb == call.verb
      && (o.bearer.Some? <==> Truthy(authToken)) && (o.bearer.Some? ==> o.bearer.value == authToken)
      && (o.body.Some? <==> Present(call.body) && CarriesBody(call.verb))
      && (o.body.Some? ==> o.body == call.body)
  {
  }

  /** GET and DELETE never send a body, whatever the token. */
  lemma ReadsSendNoBody(endpoint: string, params: seq<(string, string)>, baseURL: string, authToken: Json)
    ensures OutgoingFor(Get(endpoint, params), baseURL, authToken).body.None?
    ensures OutgoingFor(Delete(endpoint, params), baseURL, authToken).body.None?
  {
  }

  /** The TypeError message of reading `message` off a `null` body. */
  const NULL_MESSAGE_READ: string := "Cannot read properties of null (reading 'message')"

  /** The remote half of `request`: every outcome becomes an envelope; nothing is rethrown. */
  function RemoteResponse(outcome: FetchOutcome): ApiResponse<Json> {
    match outcome
    case Rejected(e) => Failure(Str(MessageOr(e, "Unknown error")))
    case Responded(ok, body) =>
      if ok then Ok(body)
      else if body.Null? then Failure(Str(NULL_MESSAGE_READ))
      else
        var m := Field(body, "message");
        Failure(if Present(m) then m.value else Str("Request failed"))
  }

  /** The three remote outcomes, as the caller sees them. */
  lemma RemoteOutcomes(outcome: FetchOutcome)
    ensures var r := RemoteResponse(outcome);
      (r.success <==> outcome.Responded? && outcome.ok)
      && (r.success ==> r.data == Some(outcome.body) && r.error.None?)
      && (!r.success ==> r.data.None? && r.error.Some?)
      && (outcome.Rejected? ==> r.error == Some(Str(MessageOr(outcome.reason, "Unknown error"))))
      && (outcome.Responded? && !outcome.ok && outcome.body.Obj? ==>
            r.error == Some(if Present(Field(outcome.body, "message")) then outcome.body.fields["message"] else Str("Request failed")))
  {
  }

  // ---------------------------------------------------------------- the client

  /**
   * What `request` answers for `call`: the fixture in local mode, the mapped
   * fetch outcome otherwise.
   */
  function Respond(call: Call, baseURL: string, bundled: Option<Fixture>, now: int, outcome: FetchOutcome): ApiResponse<Json> {
    if baseURL == Config.LOCAL_MODE then LocalResponse(call, LoadedFixture(bundled), now)
    else RemoteResponse(outcome)
  }

  class ApiClient {
    const baseURL: string
    const timeout: int
    /** What loading the bundled data file yields; None when the file is absent from the build. */
    const bundled: Option<Fixture>
    /** The bearer token; `null` (Null) until set. */
    var authToken: Json
    /** The `loadUserData` memo. */
    var userDataLoaded: bool
    var userData: Option<Fixture>

    ghost predicate Valid()
      reads this
    {
      timeout == Config.TIMEOUT
      && (userDataLoaded <==> userData.Some?)
      && (userData.Some? ==> userData.value == LoadedFixture(bundled))
    }

    /** `new ApiClient()`, with `env` the value of the base-URL environment variable. */
    constructor (env: Option<string>, bundled: Option<Fixture>)
      ensures Valid()
      ensures baseURL == Config.BaseUrl(env) && timeout == Config.TIMEOUT && this.bundled == bundled
      ensures authToken == Null && !userDataLoaded
    {
      baseURL := Config.BaseUrl(env);
      timeout := Config.TIMEOUT;
      this.bundled := bundled;
      authToken := Null;
      userDataLoaded := false;
      userData := None;
    }

    method SetAuthToken(token: Json)
      requires Valid()
      modifies this
      ensures Valid() && authToken == token
      ensures userDataLoaded == old(userDataLoaded) && userData == old(userData)
    {
      authToken := token;
    }

    method ClearAuthToken()
      requires Valid()
      modifies this
      ensures Valid() && authToken == Null
      ensures userDataLoaded == old(userDataLoaded) && userData == old(userData)
    {
      authToken := Null;
    }

    /** `buildUrl`: substitute each parameter in key order, then prefix the base URL unless it is the sentinel. */
    method BuildUrl(endpoint: string, params: seq<(string, string)>) returns (url: string)
      ensures url == Url(baseURL, endpoint, params)
    {
      url := endpoint;
      var i := 0;
      while i < |params|
        invariant 0 <= i <= |params|
        invariant url == Substitute(endpoint, params[..i])
      {
        url := ReplaceFirst(url, ":" + params[i].0, params[i].1);
        i := i + 1;
        assert params[..i][..i - 1] == params[..i - 1];
      }
      assert params[..|params|] == params;
      if baseURL != Config.LOCAL_MODE {
        url := baseURL + url;
      }
    }

    /** `loadUserData`: the first call settles on the bundled file or the mock; later calls return the memo. */
    method LoadUserData() returns (fx: Fixture)
      requires Valid()
      modifies this
      ensures Valid() && authToken == old(authToken)
      ensures fx == LoadedFixture(bundled) && userDataLoaded
    {
      if userDataLoaded {
        return userData.value;
      }
      if bundled.Some? {
        userData := bundled;
      } else {
        userData := Some(MOCK_FIXTURE);
      }
      userDataLoaded := true;
      fx := userData.value;
    }

    /** `handleLocalRequest`: load the fixture, then dispatch on the template. */
    method HandleLocalRequest(call: Call, now: int) returns (r: ApiResponse<Json>)
      requires Valid()
      modifies this
      ensures Valid() && authToken == old(authToken) && userDataLoaded
      ensures r == LocalResponse(call, LoadedFixture(bundled), now)
    {
      var fx := LoadUserData();
      r := LocalResponse(call, fx, now);
    }

    /**
     * `request`: in local mode the fixture answers; otherwise the request
     * `sent` goes out and the outcome is mapped onto the envelope.
     */
    method Request(call: Call, now: int, outcome: FetchOutcome) returns (r: ApiResponse<Json>, sent: Option<Outgoing>)
      requires Valid()
      modifies this
      ensures Valid() && authToken == old(authToken)
      ensures r == Respond(call, baseURL, bundled, now, outcome)
      ensures baseURL == Config.LOCAL_MODE ==> sent.None?
      ensures baseURL != Config.LOCAL_MODE ==>
        sent == Some(OutgoingFor(call, baseURL, authToken))
        && userDataLoaded == old(userDataLoaded) && userData == old(userData)
    {
      var url := BuildUrl(call.endpoint, call.params);
      if baseURL == Config.LOCAL_MODE {
        r := HandleLocalRequest(call, now);
        sent := None;
        return;
      }
      var bearer := if Truthy(authToken) then Some(authToken) else None;
      var body := if Present(call.body) && CarriesBody(call.verb) then call.body else None;
      sent := Some(Outgoing(call.verb, url, "application/json", bearer, body, timeout));
      r := RemoteResponse(outcome);
    }
  }
}
