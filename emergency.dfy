/** The emergency-contact service: the full list and the by-type view. */
module Emergency {
  import opened Wrappers
  import opened Js
  import opened Text
  import opened Types
  import opened Lists
  import Config
  import Client

  /** `getAllContacts`. */
  function GetAll(): Client.Call {
    Client.Get(Config.Path(Config.EMERGENCY_CONTACTS), [])
  }

  /** The list is a GET of `/api/emergency-contacts`, without parameters or body. */
  lemma CallTarget(baseURL: string)
    ensures GetAll().verb == Client.GET && GetAll().body == None
    ensures Client.Url(baseURL, GetAll().endpoint, GetAll().params) == Client.Prefix(baseURL) + "/api/emergency-contacts"
  {
    Client.PlainUrl(baseURL, "/api/emergency-contacts");
  }

  /** `getContactsByType`: the contacts whose type equals the query, ignoring case. */
  function ByType(fetched: ApiResponse<seq<EmergencyContact>>, kind: string): (r: ApiResponse<seq<EmergencyContact>>)
    ensures !Fetched(fetched) ==> r == fetched
    ensures Fetched(fetched) ==> r.success && r.data.Some? && r.error.None? && r.message.None?
    ensures Fetched(fetched) ==> Sublist(r.data.value, fetched.data.value)
    ensures Fetched(fetched) ==> forall i :: 0 <= i < |r.data.value| ==> EqualsIgnoringCase(r.data.value[i].kind, kind)
    ensures Fetched(fetched) ==> forall i :: 0 <= i < |fetched.data.value| && EqualsIgnoringCase(fetched.data.value[i].kind, kind) ==>
      fetched.data.value[i] in r.data.value
  {
    Refine(fetched, xs => Filter(xs, (c: EmergencyContact) => EqualsIgnoringCase(c.kind, kind)))
  }

  /** Case does not matter: a query and its lower-case form select the same contacts. */
  lemma ByTypeIgnoresQueryCase(fetched: ApiResponse<seq<EmergencyContact>>, kind: string)
    ensures ByType(fetched, Lower(kind)) == ByType(fetched, kind)
  {
    var lk := Lower(kind);
    assert Lower(lk) == Lower(kind) by {
      forall i | 0 <= i < |kind|
        ensures Lower(lk)[i] == Lower(kind)[i]
      {
        assert LowerChar(LowerChar(kind[i])) == LowerChar(kind[i]);
      }
    }
    if Fetched(fetched) {
      FilterAgree(fetched.data.value, (c: EmergencyContact) => EqualsIgnoringCase(c.kind, lk),
        (c: EmergencyContact) => EqualsIgnoringCase(c.kind, kind));
    }
  }
}
