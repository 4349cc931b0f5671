/**
 * The credential store: a map from key to string behind get/set/remove,
 * with the token and user-data helpers on top. One backend stands for both
 * the native secure store and the web `localStorage` fallback; `fault` is
 * the error the backend raises on a call (None: it works). Reads swallow a
 * fault and answer `null`; writes and removes rethrow it.
 */
module Storage {
  import opened Wrappers
  import opened Js

  const AUTH_TOKEN: string := "auth_token"
  const USER_DATA: string := "user_data"
  const REFRESH_TOKEN: string := "refresh_token"
  const BIOMETRIC_ENABLED: string := "biometric_enabled"

  /** `Object.values(STORAGE_KEYS)`, in declaration order. */
  const STORAGE_KEYS: seq<string> := [AUTH_TOKEN, USER_DATA, REFRESH_TOKEN, BIOMETRIC_ENABLED]

  /** The message of the TypeError raised by calling the undefined `removeRefreshToken`. */
  const NOT_A_FUNCTION: string := "this.removeRefreshToken is not a function"

  /** What the backend holds for `key`; None is `null`. */
  function Read(entries: map<string, string>, key: string): (r: Option<string>)
    ensures r.Some? <==> key in entries
  {
    if key in entries then Some(entries[key]) else None
  }

  /** `!!token` for the stored auth token: present and non-empty. */
  predicate Authenticated(entries: map<string, string>) {
    Read(entries, AUTH_TOKEN).Some? && Read(entries, AUTH_TOKEN).value != ""
  }

  /**
   * What `getUserData` answers for a working backend: `null` when nothing or
   * the empty string is stored or the text does not parse (`parse` gives
   * None), else the parsed value.
   */
  function UserDataIn(entries: map<string, string>, parse: string -> Option<Json>): (r: Json)
    ensures Read(entries, USER_DATA).None? || Read(entries, USER_DATA).value == "" ==> r == Null
    ensures Read(entries, USER_DATA).Some? && Read(entries, USER_DATA).value != "" ==>
      r == parse(entries[USER_DATA]).GetOr(Null)
  {
    match Read(entries, USER_DATA)
    case None => Null
    case Some(text) =>
      if text == "" then Null
      else
        match parse(text)
        case None => Null
        case Some(v) => v
  }

  /** `isAuthenticated` after saving a token: true exactly for a non-empty token, and other keys keep their values. */
  lemma SavedTokenAuthenticates(entries: map<string, string>, token: string)
    ensures Read(entries[AUTH_TOKEN := token], AUTH_TOKEN) == Some(token)
    ensures Authenticated(entries[AUTH_TOKEN := token]) <==> token != ""
    ensures forall k :: k != AUTH_TOKEN ==> Read(entries[AUTH_TOKEN := token], k) == Read(entries, k)
  {
  }

  /** Saved user data reads back whenever the codec round-trips it. */
  lemma UserDataRoundTrip(entries: map<string, string>, u: Json, stringify: Json -> string, parse: string -> Option<Json>)
    requires stringify(u) != "" && parse(stringify(u)) == Some(u)
    ensures UserDataIn(entries[USER_DATA := stringify(u)], parse) == u
  {
  }

  /** The storage keys whose removal works under `faults` (one entry per key, in key order). */
  function Cleared(faults: seq<Option<Exception>>): (r: set<string>)
    requires |faults| <= |STORAGE_KEYS|
    ensures forall i :: 0 <= i < |faults| ==> (faults[i].None? <==> STORAGE_KEYS[i] in r)
    ensures forall k :: k in r ==> k in STORAGE_KEYS
  {
    set i | 0 <= i < |faults| && faults[i].None? :: STORAGE_KEYS[i]
  }

  /** When every removal works, `clear` takes exactly the four storage keys and nothing reports an error. */
  lemma ClearedAll(faults: seq<Option<Exception>>)
    requires |faults| == |STORAGE_KEYS| && forall i :: 0 <= i < |faults| ==> faults[i].None?
    ensures Cleared(faults) == {AUTH_TOKEN, USER_DATA, REFRESH_TOKEN, BIOMETRIC_ENABLED}
    ensures Settled(faults) == Pass
  {
    assert STORAGE_KEYS[0] == AUTH_TOKEN && STORAGE_KEYS[1] == USER_DATA;
    assert STORAGE_KEYS[2] == REFRESH_TOKEN && STORAGE_KEYS[3] == BIOMETRIC_ENABLED;
  }

  /** Adding one more key to the removals that were tried adds it to the cleared set exactly when its removal works. */
  lemma ClearedStep(faults: seq<Option<Exception>>, i: nat)
    requires i < |faults| <= |STORAGE_KEYS|
    ensures Cleared(faults[..i + 1]) == Cleared(faults[..i]) + (if faults[i].None? then {STORAGE_KEYS[i]} else {})
  {
    var before, after := faults[..i], faults[..i + 1];
    forall k | k in Cleared(after)
      ensures k in Cleared(before) + (if faults[i].None? then {STORAGE_KEYS[i]} else {})
    {
      var j :| 0 <= j < |after| && after[j].None? && STORAGE_KEYS[j] == k;
      if j < i {
        assert before[j] == after[j];
      }
    }
    forall k | k in Cleared(before)
      ensures k in Cleared(after)
    {
      var j :| 0 <= j < |before| && before[j].None? && STORAGE_KEYS[j] == k;
      assert after[j] == before[j];
    }
    if faults[i].None? {
      assert after[i] == faults[i];
    }
  }

  /** What `Promise.all` over the removals settles to: the first fault in key order, or success. */
  function Settled(faults: seq<Option<Exception>>): (o: Outcome<Exception>)
    ensures o.Pass? <==> forall i :: 0 <= i < |faults| ==> faults[i].None?
    ensures o.Fail? ==> exists i :: 0 <= i < |faults| && faults[i] == Some(o.error)
  {
    match FirstFault(faults)
    case None => Pass
    case Some(e) => Fail(e)
  }

  /** One more removal: the outcome stays failed once failed, else takes the new removal's fault. */
  lemma SettledStep(faults: seq<Option<Exception>>, i: nat)
    requires i < |faults|
    ensures Settled(faults[..i + 1]) ==
      if Settled(faults[..i]).Fail? then Settled(faults[..i])
      else if faults[i].Some? then Fail(faults[i].value) else Pass
  {
    FirstFaultStep(faults, i);
  }

  /** Removing the cleared keys one removal at a time. */
  lemma ClearedMinusStep(m: map<string, string>, faults: seq<Option<Exception>>, i: nat)
    requires i < |faults| <= |STORAGE_KEYS|
    ensures m - Cleared(faults[..i + 1]) ==
      if faults[i].None? then (m - Cleared(faults[..i])) - {STORAGE_KEYS[i]} else m - Cleared(faults[..i])
  {
    ClearedStep(faults, i);
  }

  /** The first fault in key order, if any: the first fault of all but the last removal, else the last one's. */
  function FirstFault(faults: seq<Option<Exception>>): (r: Option<Exception>)
    ensures r.None? <==> forall i :: 0 <= i < |faults| ==> faults[i].None?
    ensures r.Some? ==> exists i :: 0 <= i < |faults| && faults[i] == r && forall j :: 0 <= j < i ==> faults[j].None?
  {
    if faults == [] then None
    else
      var init := faults[..|faults| - 1];
      var head := FirstFault(init);
      assert forall i :: 0 <= i < |init| ==> init[i] == faults[i];
      if head.Some? then head else faults[|faults| - 1]
  }

  /** The first fault of a longer prefix is the old one, or else the new entry. */
  lemma FirstFaultStep(faults: seq<Option<Exception>>, i: nat)
    requires i < |faults|
    ensures FirstFault(faults[..i + 1]) == if FirstFault(faults[..i]).Some? then FirstFault(faults[..i]) else faults[i]
  {
    assert faults[..i + 1][..i] == faults[..i];
  }

  class SecureStorageService {
    var entries: map<string, string>
    /** `JSON.stringify` and `JSON.parse` (None: the text does not parse). */
    const stringify: Json -> string
    const parse: string -> Option<Json>

    constructor (entries: map<string, string>, stringify: Json -> string, parse: string -> Option<Json>)
      ensures this.entries == entries && this.stringify == stringify && this.parse == parse
    {
      this.entries := entries;
      this.stringify := stringify;
      this.parse := parse;
    }

    /** `setItem`: store the value, or rethrow the backend's error and change nothing. */
    method SetItem(key: string, value: string, fault: Option<Exception>) returns (o: Outcome<Exception>)
      modifies this
      ensures fault.None? ==> o == Pass && entries == old(entries)[key := value]
      ensures fault.Some? ==> o == Fail(fault.value) && entries == old(entries)
    {
      if fault.Some? {
        return Fail(fault.value);
      }
      entries := entries[key := value];
      o := Pass;
    }

    /** `getItem`: a failing backend reads as `null` instead of throwing. */
    method GetItem(key: string, fault: Option<Exception>) returns (r: Option<string>)
      ensures fault.Some? ==> r.None?
      ensures fault.None? ==> (r.Some? <==> key in entries) && (r.Some? ==> r.value == entries[key])
    {
      if fault.Some? {
        return None;
      }
      r := Read(entries, key);
    }

    /** `removeItem`: drop the key, or rethrow the backend's error and change nothing. */
    method RemoveItem(key: string, fault: Option<Exception>) returns (o: Outcome<Exception>)
      modifies this
      ensures fault.None? ==> o == Pass && entries == old(entries) - {key}
      ensures fault.Some? ==> o == Fail(fault.value) && entries == old(entries)
    {
      if fault.Some? {
        return Fail(fault.value);
      }
      entries := entries - {key};
      o := Pass;
    }

    /**
     * `clear`: one `removeItem` per storage key, all started together under
     * `Promise.all`; `faults[i]` is what the backend does on the removal of
     * `STORAGE_KEYS[i]`. Every removal that works takes its key away, whatever
     * the others do, and the call rejects when any of them does.
     */
    method Clear(faults: seq<Option<Exception>>) returns (o: Outcome<Exception>)
      requires |faults| == |STORAGE_KEYS|
      modifies this
      ensures entries == old(entries) - Cleared(faults)
      ensures o == Settled(faults)
    {
      o := Pass;
      var i := 0;
      while i < |STORAGE_KEYS|
        invariant 0 <= i <= |STORAGE_KEYS|
        invariant entries == old(entries) - Cleared(faults[..i])
        invariant o == Settled(faults[..i])
      {
        var step := RemoveItem(STORAGE_KEYS[i], faults[i]);
        if step.Fail? && o.Pass? {
          o := step;
        }
        ClearedMinusStep(old(entries), faults, i);
        SettledStep(faults, i);
        i := i + 1;
      }
      assert faults[..i] == faults;
    }

    method SaveAuthToken(token: string, fault: Option<Exception>) returns (o: Outcome<Exception>)
      modifies this
      ensures fault.None? ==> o == Pass && entries == old(entries)[AUTH_TOKEN := token]
      ensures fault.Some? ==> o == Fail(fault.value) && entries == old(entries)
    {
      o := SetItem(AUTH_TOKEN, token, fault);
    }

    method GetAuthToken(fault: Option<Exception>) returns (r: Option<string>)
      ensures r == if fault.Some? then None else Read(entries, AUTH_TOKEN)
    {
      r := GetItem(AUTH_TOKEN, fault);
    }

    method RemoveAuthToken(fault: Option<Exception>) returns (o: Outcome<Exception>)
      modifies this
      ensures fault.None? ==> o == Pass && entries == old(entries) - {AUTH_TOKEN}
      ensures fault.Some? ==> o == Fail(fault.value) && entries == old(entries)
    {
      o := RemoveItem(AUTH_TOKEN, fault);
    }

    /** `saveUserData`: store the JSON text of the value. */
    method SaveUserData(userData: Json, fault: Option<Exception>) returns (o: Outcome<Exception>)
      modifies this
      ensures fault.None? ==> o == Pass && entries == old(entries)[USER_DATA := stringify(userData)]
      ensures fault.Some? ==> o == Fail(fault.value) && entries == old(entries)
    {
      o := SetItem(USER_DATA, stringify(userData), fault);
    }

    /** `getUserData`: `null` on a failing backend, on nothing stored, on empty text and on text that does not parse. */
    method GetUserData(fault: Option<Exception>) returns (r: Json)
      ensures fault.Some? ==> r == Null
      ensures fault.None? ==> r == UserDataIn(entries, parse)
    {
      var text := GetItem(USER_DATA, fault);
      if text.None? || text.value == "" {
        return Null;
      }
      match parse(text.value)
      case None => r := Null;
      case Some(v) => r := v;
    }

    method RemoveUserData(fault: Option<Exception>) returns (o: Outcome<Exception>)
      modifies this
      ensures fault.None? ==> o == Pass && entries == old(entries) - {USER_DATA}
      ensures fault.Some? ==> o == Fail(fault.value) && entries == old(entries)
    {
      o := RemoveItem(USER_DATA, fault);
    }

    method SaveRefreshToken(token: string, fault: Option<Exception>) returns (o: Outcome<Exception>)
      modifies this
      ensures fault.None? ==> o == Pass && entries == old(entries)[REFRESH_TOKEN := token]
      ensures fault.Some? ==> o == Fail(fault.value) && entries == old(entries)
    {
      o := SetItem(REFRESH_TOKEN, token, fault);
    }

    method GetRefreshToken(fault: Option<Exception>) returns (r: Option<string>)
      ensures r == if fault.Some? then None else Read(entries, REFRESH_TOKEN)
    {
      r := GetItem(REFRESH_TOKEN, fault);
    }

    /** `isAuthenticated`: the stored token is present and non-empty (false when the read fails). */
    method IsAuthenticated(fault: Option<Exception>) returns (b: bool)
      ensures b <==> fault.None? && AUTH_TOKEN in entries && entries[AUTH_TOKEN] != ""
    {
      var token := GetAuthToken(fault);
      b := token.Some? && token.value != "";
    }

    /**
     * `logout` as written: the auth token is removed, then the call of the
     * undefined `removeRefreshToken` throws a TypeError, so the refresh token
     * and the user data stay. It never completes normally.
     */
    method Logout(fault: Option<Exception>) returns (o: Outcome<Exception>)
      modifies this
      ensures o.Fail?
      ensures fault.None? ==> o.error == Error(NOT_A_FUNCTION) && entries == old(entries) - {AUTH_TOKEN}
      ensures fault.Some? ==> o.error == fault.value && entries == old(entries)
    {
      o := RemoveAuthToken(fault);
      if o.Fail? {
        return;
      }
      o := Fail(Error(NOT_A_FUNCTION));
    }

    /** `logout` as intended: remove the auth token, the refresh token and the user data, in that order. */
    method LogoutCorrected(fault: Option<Exception>) returns (o: Outcome<Exception>)
      modifies this
      ensures fault.None? ==> o == Pass && entries == old(entries) - {AUTH_TOKEN, REFRESH_TOKEN, USER_DATA}
      ensures fault.Some? ==> o == Fail(fault.value) && entries == old(entries)
    {
      o := RemoveAuthToken(fault);
      if o.Fail? {
        return;
      }
      o := RemoveItem(REFRESH_TOKEN, fault);
      if o.Fail? {
        return;
      }
      o := RemoveUserData(fault);
    }
  }

  /** After the corrected logout nobody is authenticated and no user data reads back. */
  lemma LogoutCorrectedSignsOut(entries: map<string, string>, parse: string -> Option<Json>)
    ensures !Authenticated(entries - {AUTH_TOKEN, REFRESH_TOKEN, USER_DATA})
    ensures UserDataIn(entries - {AUTH_TOKEN, REFRESH_TOKEN, USER_DATA}, parse) == Null
    ensures Read(entries - {AUTH_TOKEN, REFRESH_TOKEN, USER_DATA}, REFRESH_TOKEN).None?
  {
  }

  /** After the logout as written, the user data and refresh token survive unchanged. */
  lemma LogoutLeavesUserData(entries: map<string, string>, parse: string -> Option<Json>)
    ensures !Authenticated(entries - {AUTH_TOKEN})
    ensures UserDataIn(entries - {AUTH_TOKEN}, parse) == UserDataIn(entries, parse)
    ensures Read(entries - {AUTH_TOKEN}, REFRESH_TOKEN) == Read(entries, REFRESH_TOKEN)
  {
  }
}
