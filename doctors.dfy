/** The doctor service: by-id lookup and the specialty and name searches. */
module Doctors {
  import opened Wrappers
  import opened Js
  import opened Text
  import opened Types
  import opened Lists
  import Config
  import Client

  /** `getAllDoctors`. */
  function GetAll(): Client.Call {
    Client.Get(Config.Path(Config.DOCTORS), [])
  }

  /** `getDoctorById(id)`. */
  function GetById(id: int): Client.Call {
    Client.Get(Config.Path(Config.DOCTOR_BY_ID), Client.IdParam(id))
  }

  /** The lookup GETs `/api/doctors/<id>`. */
  lemma CallTargets(id: int, baseURL: string)
    ensures GetById(id).verb == Client.GET && GetById(id).body == None
    ensures Client.Url(baseURL, GetById(id).endpoint, GetById(id).params) == Client.Prefix(baseURL) + "/api/doctors/" + IntToString(id)
  {
    Client.ByIdTarget(Config.DOCTOR_BY_ID, baseURL, id, "/api/doctors/");
  }

  /** `searchBySpecialty`: the doctors whose specialty contains the query, ignoring case. */
  function BySpecialty(fetched: ApiResponse<seq<Doctor>>, specialty: string): (r: ApiResponse<seq<Doctor>>)
    ensures !Fetched(fetched) ==> r == fetched
    ensures Fetched(fetched) ==> r.success && r.data.Some? && r.error.None? && r.message.None?
    ensures Fetched(fetched) ==> Sublist(r.data.value, fetched.data.value)
    ensures Fetched(fetched) ==> forall i :: 0 <= i < |r.data.value| ==> ContainsIgnoringCase(r.data.value[i].specialty, specialty)
    ensures Fetched(fetched) ==> forall i :: 0 <= i < |fetched.data.value| && ContainsIgnoringCase(fetched.data.value[i].specialty, specialty) ==>
      fetched.data.value[i] in r.data.value
  {
    Refine(fetched, xs => Filter(xs, (d: Doctor) => ContainsIgnoringCase(d.specialty, specialty)))
  }

  /** `searchByName`: the doctors whose name contains the query, ignoring case. */
  function ByName(fetched: ApiResponse<seq<Doctor>>, name: string): (r: ApiResponse<seq<Doctor>>)
    ensures !Fetched(fetched) ==> r == fetched
    ensures Fetched(fetched) ==> r.success && r.data.Some? && r.error.None? && r.message.None?
    ensures Fetched(fetched) ==> Sublist(r.data.value, fetched.data.value)
    ensures Fetched(fetched) ==> forall i :: 0 <= i < |r.data.value| ==> ContainsIgnoringCase(r.data.value[i].name, name)
    ensures Fetched(fetched) ==> forall i :: 0 <= i < |fetched.data.value| && ContainsIgnoringCase(fetched.data.value[i].name, name) ==>
      fetched.data.value[i] in r.data.value
  {
    Refine(fetched, xs => Filter(xs, (d: Doctor) => ContainsIgnoringCase(d.name, name)))
  }

  /** An empty search string matches every doctor, for either search. */
  lemma EmptySearchKeepsAll(fetched: ApiResponse<seq<Doctor>>)
    ensures BySpecialty(fetched, "") == if Fetched(fetched) then Ok(fetched.data.value) else fetched
    ensures ByName(fetched, "") == if Fetched(fetched) then Ok(fetched.data.value) else fetched
  {
    if Fetched(fetched) {
      var xs := fetched.data.value;
      assert Lower("") == "";
      forall i | 0 <= i < |xs|
        ensures ContainsIgnoringCase(xs[i].specialty, "") && ContainsIgnoringCase(xs[i].name, "")
      {
        EmptyContained(Lower(xs[i].specialty));
        EmptyContained(Lower(xs[i].name));
      }
      FilterKeepsAll(xs, (d: Doctor) => ContainsIgnoringCase(d.specialty, ""));
      FilterKeepsAll(xs, (d: Doctor) => ContainsIgnoringCase(d.name, ""));
    }
  }
}
