/**
 * The user service: the order of side effects on the client's bearer token
 * and on the credential store around login, register, logout and update.
 * Each operation takes the clock, the fetch outcome and the storage fault
 * its calls meet.
 */
module Users {
  import opened Wrappers
  import opened Js
  import opened Types
  import Config
  import Client
  import Storage

  /** `response.error || fallback`. */
  function ErrorOr(r: ApiResponse<Json>, fallback: string): Json {
    if Present(r.error) then r.error.value else Str(fallback)
  }

  /**
   * What `login`/`register` return once the client has answered: the
   * payload verbatim on success with data, else `{success: false, message}`.
   */
  function AuthOutcome(r: ApiResponse<Json>, fallback: string): (out: Json)
    ensures Delivered(r) ==> out == r.data.value
    ensures !Delivered(r) ==> out == Obj(map["success" := Bool(false), "message" := ErrorOr(r, fallback)])
  {
    if Delivered(r) then r.data.value
    else Obj(map["success" := Bool(false), "message" := ErrorOr(r, fallback)])
  }

  /** The token the payload carries, when the response delivered one that is truthy. */
  function IssuedToken(r: ApiResponse<Json>): Option<Json> {
    if Delivered(r) && Present(Field(r.data.value, "token")) then Field(r.data.value, "token") else None
  }

  /** The user snapshot `login` saves: only when both the token and the user are truthy. */
  function SavedUser(r: ApiResponse<Json>): (u: Option<Json>)
    ensures u.Some? ==> IssuedToken(r).Some? && Present(Field(r.data.value, "user")) && Some(u.value) == Field(r.data.value, "user")
    ensures u.None? ==> IssuedToken(r).None? || !Present(Field(r.data.value, "user"))
  {
    if IssuedToken(r).Some? && Present(Field(r.data.value, "user")) then Field(r.data.value, "user") else None
  }

  /** How `login`/`register` settle: a failing save of the user snapshot rejects; otherwise the outcome is returned. */
  function AuthCompletion(r: ApiResponse<Json>, fallback: string, fault: Option<Exception>): Completion<Json> {
    if SavedUser(r).Some? && fault.Some? then Threw(fault.value) else Returned(AuthOutcome(r, fallback))
  }

  /** On success the payload comes back unchanged: no `success` flag is added when the payload has none. */
  lemma AuthAddsNoFlag(r: ApiResponse<Json>, fallback: string)
    requires Delivered(r) && Field(r.data.value, "success").None?
    ensures Field(AuthOutcome(r, fallback), "success").None?
  {
  }

  /** On failure the outcome is a `success: false` record carrying the client's error or the fallback. */
  lemma AuthFailureMessage(r: ApiResponse<Json>, fallback: string)
    requires !Delivered(r)
    ensures Field(AuthOutcome(r, fallback), "success") == Some(Bool(false))
    ensures Present(r.error) ==> Field(AuthOutcome(r, fallback), "message") == r.error
    ensures !Present(r.error) ==> Field(AuthOutcome(r, fallback), "message") == Some(Str(fallback))
  {
  }

  /**
   * The outcome as intended: a delivered object payload is returned with
   * `success: true` added, so the session holder's check can accept it.
   */
  function AuthOutcomeCorrected(r: ApiResponse<Json>, fallback: string): (out: Json)
    ensures Delivered(r) && r.data.value.Obj? ==>
      Field(out, "success") == Some(Bool(true)) && Field(out, "user") == Field(r.data.value, "user")
    ensures !Delivered(r) ==> out == AuthOutcome(r, fallback)
  {
    if Delivered(r) && r.data.value.Obj? then Obj(r.data.value.fields["success" := Bool(true)])
    else AuthOutcome(r, fallback)
  }

  /** The store after a login as intended: the issued token is persisted too (when it is a string). */
  function EntriesAfterAuthCorrected(r: ApiResponse<Json>, entries: map<string, string>, stringify: Json -> string): map<string, string> {
    var withToken :=
      if IssuedToken(r).Some? && IssuedToken(r).value.Str? then entries[Storage.AUTH_TOKEN := IssuedToken(r).value.s]
      else entries;
    if SavedUser(r).Some? then withToken[Storage.USER_DATA := stringify(SavedUser(r).value)] else withToken
  }

  /** A login as intended that is issued a string token leaves the store authenticated. */
  lemma CorrectedAuthPersistsToken(r: ApiResponse<Json>, entries: map<string, string>, stringify: Json -> string)
    requires IssuedToken(r).Some? && IssuedToken(r).value.Str?
    ensures Storage.Authenticated(EntriesAfterAuthCorrected(r, entries, stringify))
  {
    var token := IssuedToken(r).value;
    assert Truthy(token);
    assert token.s != "";
  }

  class UserService {
    const client: Client.ApiClient
    const storage: Storage.SecureStorageService

    constructor (client: Client.ApiClient, storage: Storage.SecureStorageService)
      ensures this.client == client && this.storage == storage
    {
      this.client := client;
      this.storage := storage;
    }

    /**
     * The body `login` and `register` share: POST the body, set the
     * client's token when the payload carries a truthy one, then save the
     * user snapshot when the payload also carries a truthy user.
     */
    method Authenticate(endpoint: string, body: Json, fallback: string, now: int, outcome: Client.FetchOutcome, fault: Option<Exception>)
      returns (c: Completion<Json>)
      requires client.Valid()
      modifies client, storage
      ensures client.Valid()
      ensures var r := Client.Respond(Client.Post(endpoint, body, []), client.baseURL, client.bundled, now, outcome);
        c == AuthCompletion(r, fallback, fault)
        && client.authToken == (if IssuedToken(r).Some? then IssuedToken(r).value else old(client.authToken))
        && storage.entries == (if SavedUser(r).Some? && fault.None?
                               then old(storage.entries)[Storage.USER_DATA := storage.stringify(SavedUser(r).value)]
                               else old(storage.entries))
    {
      var r, _ := client.Request(Client.Post(endpoint, body, []), now, outcome);
      if Delivered(r) {
        var token := Field(r.data.value, "token");
        if Present(token) {
          client.SetAuthToken(token.value);
          var user := Field(r.data.value, "user");
          if Present(user) {
            var saved := storage.SaveUserData(user.value, fault);
            if saved.Fail? {
              return Threw(saved.error);
            }
          }
        }
        return Returned(r.data.value);
      }
      c := Returned(Obj(map["success" := Bool(false), "message" := ErrorOr(r, fallback)]));
    }

    /** `login(credentials)`: the shared flow against the login endpoint, fallback message 'Login failed'. */
    method Login(credentials: Json, now: int, outcome: Client.FetchOutcome, fault: Option<Exception>) returns (c: Completion<Json>)
      requires client.Valid()
      modifies client, storage
      ensures client.Valid()
      ensures var r := Client.Respond(Client.Post(Config.Path(Config.USER_LOGIN), credentials, []), client.baseURL, client.bundled, now, outcome);
        c == AuthCompletion(r, "Login failed", fault)
        && client.authToken == (if IssuedToken(r).Some? then IssuedToken(r).value else old(client.authToken))
        && storage.entries == (if SavedUser(r).Some? && fault.None?
                               then old(storage.entries)[Storage.USER_DATA := storage.stringify(SavedUser(r).value)]
                               else old(storage.entries))
    {
      c := Authenticate(Config.Path(Config.USER_LOGIN), credentials, "Login failed", now, outcome, fault);
    }

    /** `register(userData)`: the same flow against the register endpoint, fallback message 'Registration failed'. */
    method Register(userData: Json, now: int, outcome: Client.FetchOutcome, fault: Option<Exception>) returns (c: Completion<Json>)
      requires client.Valid()
      modifies client, storage
      ensures client.Valid()
      ensures var r := Client.Respond(Client.Post(Config.Path(Config.USER_REGISTER), userData, []), client.baseURL, client.bundled, now, outcome);
        c == AuthCompletion(r, "Registration failed", fault)
        && client.authToken == (if IssuedToken(r).Some? then IssuedToken(r).value else old(client.authToken))
        && storage.entries == (if SavedUser(r).Some? && fault.None?
                               then old(storage.entries)[Storage.USER_DATA := storage.stringify(SavedUser(r).value)]
                               else old(storage.entries))
    {
      c := Authenticate(Config.Path(Config.USER_REGISTER), userData, "Registration failed", now, outcome, fault);
    }

    /**
     * `logout` as written: the store's logout always throws, so the client's
     * token is never cleared and the logout request is never sent.
     */
    method Logout(fault: Option<Exception>) returns (c: Completion<ApiResponse<Json>>)
      modifies storage
      ensures c.Threw?
      ensures fault.None? ==> c.exception == Error(Storage.NOT_A_FUNCTION) && storage.entries == old(storage.entries) - {Storage.AUTH_TOKEN}
      ensures fault.Some? ==> c.exception == fault.value && storage.entries == old(storage.entries)
    {
      var o := storage.Logout(fault);
      c := Threw(o.error);
    }

    /**
     * `logout` as intended: clear the store, then clear the client's token,
     * then POST `{}` to the logout endpoint, so the request goes out without
     * a bearer token.
     */
    method LogoutCorrected(fault: Option<Exception>, now: int, outcome: Client.FetchOutcome)
      returns (c: Completion<ApiResponse<Json>>, sent: Option<Client.Outgoing>)
      requires client.Valid()
      modifies client, storage
      ensures client.Valid()
      ensures fault.Some? ==>
        c == Threw(fault.value) && sent.None?
        && storage.entries == old(storage.entries) && client.authToken == old(client.authToken)
      ensures fault.None? ==>
        storage.entries == old(storage.entries) - {Storage.AUTH_TOKEN, Storage.REFRESH_TOKEN, Storage.USER_DATA}
        && client.authToken == Null
        && c == Returned(Client.Respond(Client.Post(Config.Path(Config.USER_LOGOUT), Obj(map[]), []), client.baseURL, client.bundled, now, outcome))
        && (sent.Some? ==> sent.value.bearer.None? && sent.value.body == Some(Obj(map[])))
    {
      var o := storage.LogoutCorrected(fault);
      if o.Fail? {
        return Threw(o.error), None;
      }
      client.ClearAuthToken();
      var r;
      r, sent := client.Request(Client.Post(Config.Path(Config.USER_LOGOUT), Obj(map[]), []), now, outcome);
      c := Returned(r);
    }

    /** `getUser`: GET the user endpoint. */
    method GetUser(now: int, outcome: Client.FetchOutcome) returns (r: ApiResponse<Json>)
      requires client.Valid()
      modifies client
      ensures client.Valid() && client.authToken == old(client.authToken)
      ensures r == Client.Respond(Client.Get(Config.Path(Config.USER), []), client.baseURL, client.bundled, now, outcome)
    {
      var sent;
      r, sent := client.Request(Client.Get(Config.Path(Config.USER), []), now, outcome);
    }

    /**
     * `updateUser(updates)`: PUT `{updates}`; on success with data save the
     * returned user (a failing save rejects); otherwise return the response.
     */
    method UpdateUser(updates: Json, now: int, outcome: Client.FetchOutcome, fault: Option<Exception>)
      returns (c: Completion<ApiResponse<Json>>)
      requires client.Valid()
      modifies client, storage
      ensures client.Valid() && client.authToken == old(client.authToken)
      ensures var r := Client.Respond(Client.Put(Config.Path(Config.USER_UPDATE), Obj(map["updates" := updates]), []),
                                      client.baseURL, client.bundled, now, outcome);
        (Delivered(r) && fault.Some? ==> c == Threw(fault.value) && storage.entries == old(storage.entries))
        && (Delivered(r) && fault.None? ==>
              c == Returned(r) && storage.entries == old(storage.entries)[Storage.USER_DATA := storage.stringify(r.data.value)])
        && (!Delivered(r) ==> c == Returned(r) && storage.entries == old(storage.entries))
    {
      var r, _ := client.Request(Client.Put(Config.Path(Config.USER_UPDATE), Obj(map["updates" := updates]), []), now, outcome);
      if Delivered(r) {
        var saved := storage.SaveUserData(r.data.value, fault);
        if saved.Fail? {
          return Threw(saved.error);
        }
      }
      c := Returned(r);
    }

    /** `isAuthenticated`: the store's answer. */
    method IsAuthenticated(fault: Option<Exception>) returns (b: bool)
      ensures b <==> fault.None? && Storage.Authenticated(storage.entries)
    {
      b := storage.IsAuthenticated(fault);
    }
  }

  /** Login never writes the auth token to the store, so the stored authentication state is what it was. */
  lemma LoginKeepsStoredToken(r: ApiResponse<Json>, entries: map<string, string>, stringify: Json -> string, fault: Option<Exception>)
    ensures var after := if SavedUser(r).Some? && fault.None? then entries[Storage.USER_DATA := stringify(SavedUser(r).value)] else entries;
      Storage.Authenticated(after) == Storage.Authenticated(entries)
  {
  }
}
