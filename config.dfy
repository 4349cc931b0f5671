/**
 * The configuration constants of the app: the base-URL switch between the
 * bundled fixture ("local") and a remote server, the request timeout, and
 * the table of endpoint path templates.
 */
module Config {
  import opened Wrappers
  import opened Text

  /** The sentinel base URL that selects the bundled fixture instead of the network. */
  const LOCAL_MODE: string := "local"

  /** Timeout for remote requests, in milliseconds. */
  const TIMEOUT: int := 10000

  /** `process.env.EXPO_PUBLIC_API_URL || 'local'`; `env` is the environment variable, None when unset. */
  function BaseUrl(env: Option<string>): (r: string)
    ensures env.Some? && env.value != "" ==> r == env.value
    ensures env.None? || env.value == "" ==> r == LOCAL_MODE
    ensures r != ""
  {
    if env.Some? && env.value != "" then env.value else LOCAL_MODE
  }

  /** The fixture is served exactly when the variable is unset, empty, or itself the sentinel. */
  lemma LocalModeIff(env: Option<string>)
    ensures BaseUrl(env) == LOCAL_MODE <==> env.None? || env.value == "" || env.value == LOCAL_MODE
  {
  }

  /** The keys of `API_ENDPOINTS`. */
  datatype Endpoint =
    | USER_LOGIN | USER_LOGOUT | USER_REGISTER | USER | USER_UPDATE
    | DOCTORS | DOCTOR_BY_ID
    | APPOINTMENTS | APPOINTMENT_BY_ID | APPOINTMENT_CREATE | APPOINTMENT_UPDATE | APPOINTMENT_DELETE
    | MEDICATIONS | MEDICATION_BY_ID | MEDICATION_MARK_TAKEN
    | HEALTH_RECORDS | HEALTH_RECORD_BY_ID
    | NOTIFICATIONS | NOTIFICATION_MARK_READ | NOTIFICATION_MARK_ALL_READ
    | PHARMACIES | PHARMACY_BY_ID
    | EMERGENCY_CONTACTS
    | FEEDBACK_SUBMIT | FEEDBACK_LIST

  /** The path template of each endpoint. */
  function Path(e: Endpoint): (p: string)
    ensures StartsWith(p, "/api/")
  {
    match e
    case USER_LOGIN => "/api/auth/login"
    case USER_LOGOUT => "/api/auth/logout"
    case USER_REGISTER => "/api/auth/register"
    case USER => "/api/auth/user"
    case USER_UPDATE => "/api/auth/user/update"
    case DOCTORS => "/api/doctors"
    case DOCTOR_BY_ID => "/api/doctors/:id"
    case APPOINTMENTS => "/api/appointments"
    case APPOINTMENT_BY_ID => "/api/appointments/:id"
    case APPOINTMENT_CREATE => "/api/appointments/create"
    case APPOINTMENT_UPDATE => "/api/appointments/:id"
    case APPOINTMENT_DELETE => "/api/appointments/:id"
    case MEDICATIONS => "/api/medications"
    case MEDICATION_BY_ID => "/api/medications/:id"
    case MEDICATION_MARK_TAKEN => "/api/medications/:id/taken"
    case HEALTH_RECORDS => "/api/health-records"
    case HEALTH_RECORD_BY_ID => "/api/health-records/:id"
    case NOTIFICATIONS => "/api/notifications"
    case NOTIFICATION_MARK_READ => "/api/notifications/:id/read"
    case NOTIFICATION_MARK_ALL_READ => "/api/notifications/read-all"
    case PHARMACIES => "/api/pharmacies"
    case PHARMACY_BY_ID => "/api/pharmacies/:id"
    case EMERGENCY_CONTACTS => "/api/emergency-contacts"
    case FEEDBACK_SUBMIT => "/api/feedback/submit"
    case FEEDBACK_LIST => "/api/feedback"
  }

  /** The three appointment endpoints that reuse one template. */
  predicate SharesTemplate(e: Endpoint) {
    e == APPOINTMENT_BY_ID || e == APPOINTMENT_UPDATE || e == APPOINTMENT_DELETE
  }

  /** Two endpoints have the same template exactly when they are the same key or both appointment by-id keys. */
  lemma TemplatesDistinct(a: Endpoint, b: Endpoint)
    ensures Path(a) == Path(b) <==> a == b || (SharesTemplate(a) && SharesTemplate(b))
  {
    if SharesTemplate(a) && SharesTemplate(b) {
      SharedTemplate(a, b);
    } else if Path(a) == Path(b) {
      SameTemplate(a, b);
    }
  }

  /** Keys with equal templates are equal or both in the appointment by-id group. */
  lemma SameTemplate(a: Endpoint, b: Endpoint)
    requires Path(a) == Path(b)
    ensures a == b || (SharesTemplate(a) && SharesTemplate(b))
  {
    SameTemplateSameKey(a, b);
    CanonicalIff(a, b);
  }

  /** Two keys stand for the same canonical key exactly when they are equal or both in the appointment by-id group. */
  lemma CanonicalIff(a: Endpoint, b: Endpoint)
    ensures Canonical(a) == Canonical(b) <==> a == b || (SharesTemplate(a) && SharesTemplate(b))
  {
  }

  /** A key outside the appointment by-id group has a template no other key uses. */
  lemma OwnTemplate(a: Endpoint)
    requires !SharesTemplate(a)
    ensures forall b :: b != a ==> Path(b) != Path(a)
  {
    forall b | b != a
      ensures Path(b) != Path(a)
    {
      TemplatesDistinct(a, b);
    }
  }

  /** Equal templates come from keys with the same canonical key. */
  lemma SameTemplateSameKey(a: Endpoint, b: Endpoint)
    requires Path(a) == Path(b)
    ensures Canonical(a) == Canonical(b)
  {
    Recovered(a);
    Recovered(b);
  }

  /** The appointment by-id keys share one template. */
  lemma SharedTemplate(a: Endpoint, b: Endpoint)
    requires SharesTemplate(a) && SharesTemplate(b)
    ensures Path(a) == Path(b)
  {
  }

  /** The key a template belongs to, recovered from its length and last character alone (`/api/feedback` is the one left). */
  function KeyOf(n: int, c: char): Endpoint {
    match n
    case 12 => DOCTORS
    case 14 => USER
    case 15 => if c == 'n' then USER_LOGIN else PHARMACIES
    case 16 => if c == 't' then USER_LOGOUT else if c == 'd' then DOCTOR_BY_ID else MEDICATIONS
    case 17 => APPOINTMENTS
    case 18 => if c == 'r' then USER_REGISTER else NOTIFICATIONS
    case 19 => if c == 's' then HEALTH_RECORDS else PHARMACY_BY_ID
    case 20 => if c == 'd' then MEDICATION_BY_ID else FEEDBACK_SUBMIT
    case 21 => if c == 'e' then USER_UPDATE else APPOINTMENT_BY_ID
    case 23 => if c == 'd' then HEALTH_RECORD_BY_ID else EMERGENCY_CONTACTS
    case 24 => APPOINTMENT_CREATE
    case 26 => MEDICATION_MARK_TAKEN
    case 27 => if c == 'd' then NOTIFICATION_MARK_READ else NOTIFICATION_MARK_ALL_READ
    case _ => FEEDBACK_LIST
  }

  /** The one key standing for each template: the appointment by-id keys all stand for APPOINTMENT_BY_ID. */
  function Canonical(e: Endpoint): Endpoint {
    if SharesTemplate(e) then APPOINTMENT_BY_ID else e
  }

  /** Each template's length and last character lead back to its canonical key. */
  lemma Recovered(e: Endpoint)
    ensures |Path(e)| > 0 && KeyOf(|Path(e)|, Path(e)[|Path(e)| - 1]) == Canonical(e)
  {
    match e
    case USER_LOGIN | USER_LOGOUT | USER_REGISTER | USER | USER_UPDATE => {}
    case DOCTORS | DOCTOR_BY_ID => {}
    case APPOINTMENTS | APPOINTMENT_BY_ID | APPOINTMENT_CREATE | APPOINTMENT_UPDATE | APPOINTMENT_DELETE => {}
    case MEDICATIONS | MEDICATION_BY_ID | MEDICATION_MARK_TAKEN => {}
    case HEALTH_RECORDS | HEALTH_RECORD_BY_ID => {}
    case NOTIFICATIONS | NOTIFICATION_MARK_READ | NOTIFICATION_MARK_ALL_READ => {}
    case PHARMACIES | PHARMACY_BY_ID | EMERGENCY_CONTACTS => {}
    case FEEDBACK_SUBMIT | FEEDBACK_LIST => {}
  }

  /** No ':' occurs in `s`: the text has no placeholder. */
  predicate ColonFree(s: string) {
    forall i :: 0 <= i < |s| ==> s[i] != ':'
  }

  /**
   * The only placeholder is `:id`, at most once: a template either has no ':'
   * at all, or is `pre + ":id" + post` with no other ':' in it.
   */
  function IdSplit(e: Endpoint): (r: Option<(string, string)>)
    ensures r.None? ==> ColonFree(Path(e))
    ensures r.Some? ==> Path(e) == r.value.0 + ":id" + r.value.1
    ensures r.Some? ==> ColonFree(r.value.0) && ColonFree(r.value.1)
  {
    PlainTemplatesColonFree();
    TemplatePiecesColonFree();
    TemplatesSplit();
    match e
    case DOCTOR_BY_ID => Split("/api/doctors/", "")
    case APPOINTMENT_BY_ID => Split("/api/appointments/", "")
    case APPOINTMENT_UPDATE => Split("/api/appointments/", "")
    case APPOINTMENT_DELETE => Split("/api/appointments/", "")
    case MEDICATION_BY_ID => Split("/api/medications/", "")
    case MEDICATION_MARK_TAKEN => Split("/api/medications/", "/taken")
    case HEALTH_RECORD_BY_ID => Split("/api/health-records/", "")
    case NOTIFICATION_MARK_READ => Split("/api/notifications/", "/read")
    case PHARMACY_BY_ID => Split("/api/pharmacies/", "")
    case USER_LOGIN | USER_LOGOUT | USER_REGISTER | USER | USER_UPDATE => None
    case DOCTORS | APPOINTMENTS | APPOINTMENT_CREATE | MEDICATIONS | HEALTH_RECORDS => None
    case NOTIFICATIONS | NOTIFICATION_MARK_ALL_READ | PHARMACIES | EMERGENCY_CONTACTS => None
    case FEEDBACK_SUBMIT | FEEDBACK_LIST => None
  }

  function Split(pre: string, post: string): (r: Option<(string, string)>)
    ensures r == Some((pre, post))
  {
    Some((pre, post))
  }

  lemma PlainTemplatesColonFree()
    ensures ColonFree("/api/auth/login") && ColonFree("/api/auth/logout") && ColonFree("/api/auth/register")
    ensures ColonFree("/api/auth/user") && ColonFree("/api/auth/user/update") && ColonFree("/api/doctors")
    ensures ColonFree("/api/appointments") && ColonFree("/api/appointments/create") && ColonFree("/api/medications")
    ensures ColonFree("/api/health-records") && ColonFree("/api/notifications") && ColonFree("/api/notifications/read-all")
    ensures ColonFree("/api/pharmacies") && ColonFree("/api/emergency-contacts") && ColonFree("/api/feedback/submit")
    ensures ColonFree("/api/feedback")
  {
  }

  lemma TemplatesSplit()
    ensures "/api/doctors/:id" == "/api/doctors/" + ":id" + ""
    ensures "/api/appointments/:id" == "/api/appointments/" + ":id" + ""
    ensures "/api/medications/:id" == "/api/medications/" + ":id" + ""
    ensures "/api/medications/:id/taken" == "/api/medications/" + ":id" + "/taken"
    ensures "/api/health-records/:id" == "/api/health-records/" + ":id" + ""
    ensures "/api/notifications/:id/read" == "/api/notifications/" + ":id" + "/read"
    ensures "/api/pharmacies/:id" == "/api/pharmacies/" + ":id" + ""
  {
  }

  lemma TemplatePiecesColonFree()
    ensures ColonFree("/api/doctors/") && ColonFree("/api/appointments/") && ColonFree("/api/medications/")
    ensures ColonFree("/api/health-records/") && ColonFree("/api/notifications/") && ColonFree("/api/pharmacies/")
    ensures ColonFree("/taken") && ColonFree("/read") && ColonFree("")
  {
  }
}
