/** The pharmacy service: by-id lookup, the open view and the name search. */
module Pharmacies {
  import opened Wrappers
  import opened Js
  import opened Text
  import opened Types
  import opened Lists
  import Config
  import Client

  /** `getAllPharmacies`. */
  function GetAll(): Client.Call {
    Client.Get(Config.Path(Config.PHARMACIES), [])
  }

  /** `getPharmacyById(id)`. */
  function GetById(id: int): Client.Call {
    Client.Get(Config.Path(Config.PHARMACY_BY_ID), Client.IdParam(id))
  }

  /** The lookup GETs `/api/pharmacies/<id>`. */
  lemma CallTargets(id: int, baseURL: string)
    ensures GetById(id).verb == Client.GET && GetById(id).body == None
    ensures Client.Url(baseURL, GetById(id).endpoint, GetById(id).params) == Client.Prefix(baseURL) + "/api/pharmacies/" + IntToString(id)
  {
    Client.ByIdTarget(Config.PHARMACY_BY_ID, baseURL, id, "/api/pharmacies/");
  }

  /** `getOpenPharmacies`: exactly the open pharmacies, in fetched order. */
  function Open(fetched: ApiResponse<seq<Pharmacy>>): (r: ApiResponse<seq<Pharmacy>>)
    ensures !Fetched(fetched) ==> r == fetched
    ensures Fetched(fetched) ==> r.success && r.data.Some? && r.error.None? && r.message.None?
    ensures Fetched(fetched) ==> Sublist(r.data.value, fetched.data.value)
    ensures Fetched(fetched) ==> forall i :: 0 <= i < |r.data.value| ==> r.data.value[i].open
    ensures Fetched(fetched) ==> forall i :: 0 <= i < |fetched.data.value| && fetched.data.value[i].open ==>
      fetched.data.value[i] in r.data.value
  {
    Refine(fetched, xs => Filter(xs, (p: Pharmacy) => p.open))
  }

  /** `searchByName`: the pharmacies whose name contains the query, ignoring case. */
  function ByName(fetched: ApiResponse<seq<Pharmacy>>, name: string): (r: ApiResponse<seq<Pharmacy>>)
    ensures !Fetched(fetched) ==> r == fetched
    ensures Fetched(fetched) ==> r.success && r.data.Some? && r.error.None? && r.message.None?
    ensures Fetched(fetched) ==> Sublist(r.data.value, fetched.data.value)
    ensures Fetched(fetched) ==> forall i :: 0 <= i < |r.data.value| ==> ContainsIgnoringCase(r.data.value[i].name, name)
    ensures Fetched(fetched) ==> forall i :: 0 <= i < |fetched.data.value| && ContainsIgnoringCase(fetched.data.value[i].name, name) ==>
      fetched.data.value[i] in r.data.value
  {
    Refine(fetched, xs => Filter(xs, (p: Pharmacy) => ContainsIgnoringCase(p.name, name)))
  }
}
