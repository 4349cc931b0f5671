/**
 * The records the API layer exchanges: the tagged `ApiResponse` envelope and
 * the entity types the domain services filter. Entities carry the fields the
 * data layer reads; `type` is spelled `kind` because `type` is a Dafny keyword.
 */
module Types {
  import opened Wrappers
  import opened Js

  /**
   * `{ success, data?, message?, error? }`. Absent optional fields are None.
   * `message` and `error` hold whatever value the producer put there (a
   * server may send a non-string `message`).
   */
  datatype ApiResponse<T> = ApiResponse(success: bool, data: Option<T>, message: Option<Json>, error: Option<Json>)

  /** `{ success: true, data }`. */
  function Ok<T>(data: T): ApiResponse<T> {
    ApiResponse(true, Some(data), None, None)
  }

  /** `{ success: false, error }`. */
  function Failure<T>(error: Json): ApiResponse<T> {
    ApiResponse(false, None, None, Some(error))
  }

  /** `response.success && response.data` for a list payload: an array is always truthy. */
  predicate Fetched<T>(r: ApiResponse<seq<T>>) {
    r.success && r.data.Some?
  }

  /** `response.success && response.data` for a payload of any JavaScript value. */
  predicate Delivered(r: ApiResponse<Json>) {
    r.success && Present(r.data)
  }

  /**
   * The shape every derived query shares: on a successful fetch with data,
   * `{ success: true, data: f(data) }`; otherwise the fetched response itself.
   */
  function Refine<T>(r: ApiResponse<seq<T>>, f: seq<T> -> seq<T>): ApiResponse<seq<T>> {
    if Fetched(r) then Ok(f(r.data.value)) else r
  }

  /** What `new Date(text)` yields, as a time value: milliseconds, or NaN for text that does not parse. */
  datatype Instant = At(ms: int) | NaN

  /** `new Date(a) >= now`: a comparison with NaN is false. */
  predicate AtOrAfter(t: Instant, now: int) {
    t.At? && t.ms >= now
  }

  /** `new Date(a) < now`: a comparison with NaN is false. */
  predicate Before(t: Instant, now: int) {
    t.At? && t.ms < now
  }

  datatype Appointment = Appointment(
    id: int, doctorId: int, doctorName: string, specialty: string,
    date: string, time: string, status: string, kind: string, reason: string)

  datatype Medication = Medication(id: int, name: string, endDate: Option<string>, available: bool)

  datatype HealthRecord = HealthRecord(id: int, title: string, date: string, kind: string, category: string)

  datatype Notification = Notification(id: int, kind: string, title: string, read: bool)

  datatype Doctor = Doctor(id: int, name: string, specialty: string)

  datatype Pharmacy = Pharmacy(id: int, name: string, open: bool)

  datatype EmergencyContact = EmergencyContact(id: int, kind: string, name: string, phone: string)
}
