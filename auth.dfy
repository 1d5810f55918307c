/**
 The session layer (`AuthProvider`, src/hooks/useAuth.tsx): the bearer token,
 the signed-in user and the loading flag, kept next to the `cf_token` entry of
 `localStorage`.

 Each operation is given twice: as a function from the state before to the
 state after (with the properties it guarantees), and as a method of the
 `Session` class that performs the same steps on the objects and is proved to
 end in the state the function describes.
 */
module Auth {
  import opened Wrappers
  import opened Js
  import JsString
  import opened Net
  import Claims

  /** The storage key of the bearer token. */
  const TokenKey: string := "cf_token"

  /** The text of the error `login` throws when the API gives no message. */
  const LoginFailedText: string := "Erreur de connexion"

  const MeRequest: Request := Request(GET, AuthMe, Undefined)
  const UsersMeRequest: Request := Request(GET, UsersMe, Undefined)
  const LogoutRequest: Request := Request(POST, AuthLogout, Undefined)

  function LoginRequest(email: Json, password: Json): Request {
    Request(POST, AuthLogin, Obj(map["email" := email, "password" := password]))
  }

  /** The profile lookup shared by the bootstrap and `login`: `/auth/me`, and on
      any failure of it `/users/me`. */
  const ProfileFetch: seq<Step> := [Step(MeRequest, AnyFailure), Step(UsersMeRequest, Never)]

  /** The provider's three pieces of React state. */
  datatype AuthState = AuthState(token: Json, user: Json, isLoading: bool)

  datatype State = State(auth: AuthState, env: Env)

  /** The state on mount: the token read back from storage, no user yet, loading. */
  function Initial(storage: map<string, Json>): (a: AuthState)
    ensures a.user == Null && a.isLoading
    ensures a.token == GetItem(storage, TokenKey)
  {
    AuthState(GetItem(storage, TokenKey), Null, true)
  }

  /** What `localStorage.setItem("cf_token", t)` leaves in storage for a token
      `t`: its text (`String(t)`), or nothing for the cleared token. */
  function StoredForm(t: Json): Json {
    if t == Null then Null else Str(ToText(t))
  }

  /** The token held in memory is, as storage would hold it, the one in
      storage (absent reads as null). */
  predicate Synced(s: State) {
    GetItem(s.env.storage, TokenKey) == StoredForm(s.auth.token)
  }

  /** The profile lookup stops after `/auth/me` when it succeeds, and otherwise
      makes exactly one more request, to `/users/me`. */
  lemma ProfileFetchRun(e: Env)
    ensures var r := RunChain(ProfileFetch, e);
      && (OutcomeAt(e.script, 0).Ok? ==>
            r == Run(OutcomeAt(e.script, 0), 1, e.(script := Drop(e.script, 1), log := e.log + [MeRequest])))
      && (OutcomeAt(e.script, 0).Fail? ==>
            r == Run(OutcomeAt(e.script, 1), 2, e.(script := Drop(e.script, 2), log := e.log + [MeRequest, UsersMeRequest])))
  {
    var r := RunChain(ProfileFetch, e);
    assert ProfileFetch[..1] == [ProfileFetch[0]];
    assert ProfileFetch[..2] == ProfileFetch;
    assert Requests([ProfileFetch[0]]) == [MeRequest];
    assert Requests(ProfileFetch) == [MeRequest, UsersMeRequest];
    if OutcomeAt(e.script, 0).Ok? {
      assert !Retries(ProfileFetch[0].retry, OutcomeAt(e.script, 0));
      assert r.attempts == 1;
    } else {
      assert Retries(ProfileFetch[0].retry, OutcomeAt(e.script, 0));
      assert r.attempts == 2;
    }
  }

  // ---------------------------------------------------------------------------
  // The bootstrap effect (src/hooks/useAuth.tsx:47-127)

  /** One run of the effect to completion. With a token, the profile is looked up;
      when both endpoints fail, a 401 from `/users/me` clears the session, and
      then, in every failing case, the claims of the token the run started with
      are decoded and, when truthy, become the user. */
  function BootstrapSpec(s: State, decode: string -> Json): (r: State)
    ensures !r.auth.isLoading
    ensures !Truthy(s.auth.token) ==> r == s.(auth := s.auth.(isLoading := false))
    ensures Truthy(s.auth.token) && OutcomeAt(s.env.script, 0).Ok? ==>
      && r.auth == s.auth.(user := OutcomeAt(s.env.script, 0).data, isLoading := false)
      && r.env == s.env.(script := Drop(s.env.script, 1), log := s.env.log + [MeRequest])
    ensures Truthy(s.auth.token) && OutcomeAt(s.env.script, 0).Fail? && OutcomeAt(s.env.script, 1).Ok? ==>
      && r.auth == s.auth.(user := OutcomeAt(s.env.script, 1).data, isLoading := false)
      && r.env == s.env.(script := Drop(s.env.script, 2), log := s.env.log + [MeRequest, UsersMeRequest])
    ensures Truthy(s.auth.token) && OutcomeAt(s.env.script, 0).Fail? && OutcomeAt(s.env.script, 1).Fail? ==>
      var unauthorized := OutcomeAt(s.env.script, 1).status == Some(401);
      var claims := Claims.ParseJwt(decode, s.auth.token);
      && r.env.script == Drop(s.env.script, 2)
      && r.env.log == s.env.log + [MeRequest, UsersMeRequest]
      && (unauthorized ==> r.auth.token == Null && r.env.storage == s.env.storage - {TokenKey})
      && (!unauthorized ==> r.auth.token == s.auth.token && r.env.storage == s.env.storage)
      && (Truthy(claims) ==> r.auth.user == Claims.ClaimsToUser(claims))
      && (!Truthy(claims) ==> r.auth.user == if unauthorized then Null else s.auth.user)
  {
    if !Truthy(s.auth.token) then
      s.(auth := s.auth.(isLoading := false))
    else
      var run := RunChain(ProfileFetch, s.env);
      ProfileFetchRun(s.env);
      if run.outcome.Ok? then
        State(s.auth.(user := run.outcome.data, isLoading := false), run.env)
      else
        var unauthorized := run.outcome.status == Some(401);
        var cleared := if unauthorized then s.auth.(user := Null, token := Null) else s.auth;
        var env := if unauthorized then run.env.(storage := run.env.storage - {TokenKey}) else run.env;
        var claims := Claims.ParseJwt(decode, s.auth.token);
        var recovered := if Truthy(claims) then cleared.(user := Claims.ClaimsToUser(claims)) else cleared;
        State(recovered.(isLoading := false), env)
  }

  /** The bootstrap never issues more than the two profile requests. */
  lemma BootstrapRequests(s: State, decode: string -> Json)
    ensures var r := BootstrapSpec(s, decode);
      && |s.env.log| <= |r.env.log| <= |s.env.log| + 2
      && r.env.log[..|s.env.log|] == s.env.log
  {
  }

  /** A 401 from `/users/me` on a token whose claims decode leaves a signed-out
      token next to a signed-in user: the recovery runs on the old token. */
  lemma BootstrapUnauthorizedKeepsClaimsUser(s: State, decode: string -> Json)
    requires Truthy(s.auth.token)
    requires OutcomeAt(s.env.script, 0).Fail? && OutcomeAt(s.env.script, 1).Fail?
    requires OutcomeAt(s.env.script, 1).status == Some(401)
    requires Truthy(Claims.ParseJwt(decode, s.auth.token))
    ensures var r := BootstrapSpec(s, decode);
      && r.auth.token == Null && TokenKey !in r.env.storage
      && r.auth.user == Claims.ClaimsToUser(Claims.ParseJwt(decode, s.auth.token))
      && Truthy(r.auth.user)
  {
  }

  /** The recovery example: `/auth/me` answers 500, `/users/me` answers 404, and the
      payload of the stored JWT decodes to claims carrying a subject, an email and
      one role. */
  lemma BootstrapRecoversFromClaims(s: State, decode: string -> Json, header: string, payload: string, signature: string)
    requires '.' !in header && '.' !in payload && '.' !in signature
    requires s.auth.token == Str(header + "." + payload + "." + signature)
    requires decode(payload) == Claims.ExampleClaims
    requires s.env.script == [Fail(Some(500), "", "e"), Fail(Some(404), "", "e")]
    ensures var r := BootstrapSpec(s, decode);
      && r.auth == s.auth.(user := Claims.ExampleUser, isLoading := false)
      && r.env.storage == s.env.storage
      && r.env.log == s.env.log + [MeRequest, UsersMeRequest]
  {
    Claims.JwtClaims(decode, header, payload, signature);
    RecoversExampleUser(s, decode);
  }

  lemma RecoversExampleUser(s: State, decode: string -> Json)
    requires Truthy(s.auth.token) && Claims.ParseJwt(decode, s.auth.token) == Claims.ExampleClaims
    requires s.env.script == [Fail(Some(500), "", "e"), Fail(Some(404), "", "e")]
    ensures var r := BootstrapSpec(s, decode);
      && r.auth == s.auth.(user := Claims.ExampleUser, isLoading := false)
      && r.env.storage == s.env.storage
      && r.env.log == s.env.log + [MeRequest, UsersMeRequest]
  {
    assert OutcomeAt(s.env.script, 0) == Fail(Some(500), "", "e");
    assert OutcomeAt(s.env.script, 1) == Fail(Some(404), "", "e");
    assert Truthy(Claims.ExampleClaims);
    BootstrapRecovery(s, decode);
    Claims.ClaimsExample();
  }

  /** Both profile endpoints failing without a 401 keeps the token and hands the
      user over to the decoded claims, when they are truthy. */
  lemma BootstrapRecovery(s: State, decode: string -> Json)
    requires Truthy(s.auth.token) && Truthy(Claims.ParseJwt(decode, s.auth.token))
    requires OutcomeAt(s.env.script, 0).Fail? && OutcomeAt(s.env.script, 1).Fail?
    requires OutcomeAt(s.env.script, 1).status != Some(401)
    ensures var r := BootstrapSpec(s, decode);
      && r.auth == s.auth.(user := Claims.ClaimsToUser(Claims.ParseJwt(decode, s.auth.token)), isLoading := false)
      && r.env.storage == s.env.storage
      && r.env.log == s.env.log + [MeRequest, UsersMeRequest]
  {
  }

  // ---------------------------------------------------------------------------
  // login (src/hooks/useAuth.tsx:129-168)

  /** What `login` settles to: a returned value, or a thrown `Error` with its message. */
  datatype LoginResult = Returned(user: Json) | Threw(message: string)

  datatype LoginRun = LoginRun(state: State, result: LoginResult)

  /** `res.data?.token || res.data?.accessToken` */
  function IssuedToken(data: Json): Json {
    Or(Get(data, "token"), Get(data, "accessToken"))
  }

  /** `res.data?.user || res.data?.profile || res.data?.data` */
  function BodyUser(data: Json): Json {
    FirstTruthy([Get(data, "user"), Get(data, "profile"), Get(data, "data")])
  }

  function LoginSpec(s: State, email: Json, password: Json): (r: LoginRun)
    ensures var posted := s.env.log + [LoginRequest(email, password)];
      && |posted| <= |r.state.env.log| <= |posted| + 2
      && r.state.env.log[..|posted|] == posted
    ensures r.state.auth.isLoading == s.auth.isLoading
    ensures r.result.Threw? <==> OutcomeAt(s.env.script, 0).Fail?
    ensures r.result.Threw? ==>
      && r.result.message == JsString.OrElse(ResponseMessage(OutcomeAt(s.env.script, 0)), LoginFailedText)
      && r.state == State(s.auth, s.env.(script := Drop(s.env.script, 1), log := s.env.log + [LoginRequest(email, password)]))
    ensures OutcomeAt(s.env.script, 0).Ok? && !Truthy(IssuedToken(OutcomeAt(s.env.script, 0).data)) ==>
      && r.result == Returned(Null)
      && r.state == State(s.auth, s.env.(script := Drop(s.env.script, 1), log := s.env.log + [LoginRequest(email, password)]))
    ensures OutcomeAt(s.env.script, 0).Ok? && Truthy(IssuedToken(OutcomeAt(s.env.script, 0).data)) ==>
      var t := IssuedToken(OutcomeAt(s.env.script, 0).data);
      var me, usersMe := OutcomeAt(s.env.script, 1), OutcomeAt(s.env.script, 2);
      var fromBody := BodyUser(OutcomeAt(s.env.script, 0).data);
      && r.state.auth.token == t
      && r.state.env.storage == s.env.storage[TokenKey := Str(ToText(t))]
      && r.state.env.log == s.env.log + [LoginRequest(email, password)] + (if me.Ok? then [MeRequest] else [MeRequest, UsersMeRequest])
      && r.state.env.script == Drop(s.env.script, if me.Ok? then 2 else 3)
      && (me.Ok? ==> r.result == Returned(me.data) && r.state.auth.user == me.data)
      && (me.Fail? && usersMe.Ok? ==> r.result == Returned(usersMe.data) && r.state.auth.user == usersMe.data)
      && (me.Fail? && usersMe.Fail? && Truthy(fromBody) ==> r.result == Returned(fromBody) && r.state.auth.user == fromBody)
      && (me.Fail? && usersMe.Fail? && !Truthy(fromBody) ==> r.result == Returned(Null) && r.state.auth.user == s.auth.user)
  {
    var o := OutcomeAt(s.env.script, 0);
    var posted := s.env.(script := Drop(s.env.script, 1), log := s.env.log + [LoginRequest(email, password)]);
    if o.Fail? then
      LoginRun(State(s.auth, posted), Threw(JsString.OrElse(ResponseMessage(o), LoginFailedText)))
    else
      var t := IssuedToken(o.data);
      if !Truthy(t) then
        LoginRun(State(s.auth, posted), Returned(Null))
      else
        var stored := posted.(storage := posted.storage[TokenKey := Str(ToText(t))]);
        var signedIn := s.auth.(token := t);
        var run := RunChain(ProfileFetch, stored);
        ProfileFetchRun(stored);
        OutcomeAfterFirst(s.env.script, 0);
        OutcomeAfterFirst(s.env.script, 1);
        if run.outcome.Ok? then
          LoginRun(State(signedIn.(user := run.outcome.data), run.env), Returned(run.outcome.data))
        else
          var fromBody := BodyUser(o.data);
          if Truthy(fromBody) then
            LoginRun(State(signedIn.(user := fromBody), run.env), Returned(fromBody))
          else
            LoginRun(State(signedIn, run.env), Returned(Null))
  }

  /** A token that is not a string is kept as it is in memory, but storage can
      only hold its text: a numeric token 5 is stored as "5", and a later mount
      reads back the string. */
  lemma NumericTokenStoredAsText(s: State, email: Json, password: Json)
    requires OutcomeAt(s.env.script, 0) == Ok(Obj(map["token" := Num(5)]))
    ensures var r := LoginSpec(s, email, password).state;
      && r.auth.token == Num(5)
      && GetItem(r.env.storage, TokenKey) == Str("5")
      && Initial(r.env.storage).token == Str("5") != r.auth.token
  {
    assert IssuedToken(OutcomeAt(s.env.script, 0).data) == Num(5);
    assert ToText(Num(5)) == "5";
  }

  /** What `login` returns is the user it sets, except a falsy result, which may
      leave the previous user in place. */
  lemma LoginReturnsUser(s: State, email: Json, password: Json)
    ensures var r := LoginSpec(s, email, password);
      r.result.Returned? ==>
        r.state.auth.user == r.result.user || (r.result.user == Null && r.state.auth.user == s.auth.user)
  {
    var o := OutcomeAt(s.env.script, 0);
    if o.Ok? && Truthy(IssuedToken(o.data)) {
      var me := OutcomeAt(s.env.script, 1);
      var usersMe := OutcomeAt(s.env.script, 2);
      if me.Fail? && usersMe.Fail? {
        var fromBody := BodyUser(o.data);
        assert Truthy(fromBody) || !Truthy(fromBody);
      }
    }
  }

  // ---------------------------------------------------------------------------
  // logout (src/hooks/useAuth.tsx:170-175)

  /** The logout request is sent and its outcome ignored; the session is cleared. */
  function LogoutSpec(s: State): (r: State)
    ensures r.auth == s.auth.(user := Null, token := Null)
    ensures TokenKey !in r.env.storage && r.env.storage == s.env.storage - {TokenKey}
    ensures r.env.log == s.env.log + [LogoutRequest] && r.env.script == Drop(s.env.script, 1)
  {
    var posted := Call(s.env, LogoutRequest).1;
    State(s.auth.(user := Null, token := Null), posted.(storage := posted.storage - {TokenKey}))
  }

  /** Storage and memory agree on the token after every operation that starts from agreement. */
  lemma SyncedPreserved(s: State, decode: string -> Json, email: Json, password: Json)
    requires Synced(s)
    ensures Synced(BootstrapSpec(s, decode))
    ensures Synced(LoginSpec(s, email, password).state)
    ensures Synced(LogoutSpec(s))
  {
  }

  /** The initial state agrees with storage, which holds only strings. */
  lemma InitialSynced(e: Env)
    requires TokenKey in e.storage ==> e.storage[TokenKey].Str?
    ensures Synced(State(Initial(e.storage), e))
  {
  }

  /** After logout the next bootstrap finds no token: no request, no user, not loading. */
  lemma BootstrapAfterLogout(s: State, decode: string -> Json)
    ensures var out := LogoutSpec(s);
      var r := BootstrapSpec(out, decode);
      && r.env == out.env && r.auth.user == Null && r.auth.token == Null && !r.auth.isLoading
  {
  }

  // ---------------------------------------------------------------------------
  // hasRole (src/hooks/useAuth.tsx:177-182)

  /** `rs.some((r) => items.includes(r))` */
  function AnyIncluded(rs: seq<string>, items: seq<Json>): (b: bool)
    ensures b <==> exists i :: 0 <= i < |rs| && Str(rs[i]) in items
    decreases |rs|
  {
    if |rs| == 0 then false
    else
      assert forall i :: 0 < i < |rs| ==> rs[i] == rs[1..][i - 1];
      Str(rs[0]) in items || AnyIncluded(rs[1..], items)
  }

  /** Whether the user holds one of `rs`. */
  function HasRole(user: Json, rs: seq<string>): (b: bool)
    ensures b <==>
      && Truthy(user)
      && Get(user, "roles").Arr? && |Get(user, "roles").items| > 0
      && exists i :: 0 <= i < |rs| && Str(rs[i]) in Get(user, "roles").items
    ensures rs == [] ==> !b
  {
    if !Truthy(user) then false
    else
      var userRoles := Get(user, "roles");
      if !userRoles.Arr? || |userRoles.items| == 0 then false
      else AnyIncluded(rs, userRoles.items)
  }

  /** Asking about more roles can only help. */
  lemma HasRoleMonotone(user: Json, rs: seq<string>, more: seq<string>)
    requires HasRole(user, rs)
    ensures HasRole(user, rs + more) && HasRole(user, more + rs)
  {
    var i :| 0 <= i < |rs| && Str(rs[i]) in Get(user, "roles").items;
    assert (rs + more)[i] == rs[i];
    assert (more + rs)[|more| + i] == rs[i];
  }

  /** A signed-out session holds no role. */
  lemma NoRoleAfterLogout(s: State, rs: seq<string>)
    ensures !HasRole(LogoutSpec(s).auth.user, rs)
  {
  }

  /** A user recovered from a lone role string holds that role. */
  lemma ClaimsRoleHeld(claims: Json, role: string)
    requires Get(claims, "roles") == Str(role) && role != ""
    ensures HasRole(Claims.ClaimsToUser(claims), [role])
  {
    var found := RoleClaimsHead(claims, role);
    var u := Claims.ClaimsToUser(claims);
    assert Get(u, "roles") == Arr([Str(role)]);
    assert [role][0] == role;
  }

  /** The roles claim is looked at first. */
  lemma RoleClaimsHead(claims: Json, role: string) returns (found: Json)
    requires Get(claims, "roles") == Str(role) && role != ""
    ensures found == FirstTruthy(Claims.RoleClaims(claims)) && found == Str(role)
  {
    FirstTruthyStopsAtTruthy(Claims.RoleClaims(claims), 0);
    found := FirstTruthy(Claims.RoleClaims(claims));
  }

  // ---------------------------------------------------------------------------
  // The provider as an object

  /** The mounted `AuthProvider`: its state, and the storage and API it talks to. */
  class Session {
    const store: LocalStorage
    const api: ApiClient
    var token: Json
    var user: Json
    var isLoading: bool

    function Snapshot(): State
      reads this, store, api
    {
      State(AuthState(token, user, isLoading), EnvOf(store, api))
    }

    /** Mounting: the token is read back from storage. */
    constructor (store: LocalStorage, api: ApiClient)
      ensures this.store == store && this.api == api
      ensures Snapshot() == State(Initial(store.items), EnvOf(store, api))
    {
      this.store := store;
      this.api := api;
      token := GetItem(store.items, TokenKey);
      user := Null;
      isLoading := true;
    }

    /** The effect, run once to completion for the current token. */
    method Bootstrap(decode: string -> Json)
      modifies this, store, api
      ensures Snapshot() == BootstrapSpec(old(Snapshot()), decode)
    {
      ghost var s := Snapshot();
      if !Truthy(token) {
        isLoading := false;
        return;
      }
      ProfileFetchRun(s.env);
      DropAfterFirst(s.env.script, 1);
      OutcomeAfterFirst(s.env.script, 0);
      var me := api.Send(MeRequest);
      if me.Ok? {
        user := me.data;
        isLoading := false;
        return;
      }
      var usersMe := api.Send(UsersMeRequest);
      if usersMe.Ok? {
        user := usersMe.data;
        isLoading := false;
        return;
      }
      var captured := token;
      if usersMe.status == Some(401) {
        user := Null;
        token := Null;
        store.RemoveItem(TokenKey);
      }
      var claims := Claims.ParseJwt(decode, captured);
      if Truthy(claims) {
        user := Claims.ClaimsToUser(claims);
      }
      isLoading := false;
    }

    method Login(email: Json, password: Json) returns (result: LoginResult)
      modifies this, store, api
      ensures Snapshot() == LoginSpec(old(Snapshot()), email, password).state
      ensures result == LoginSpec(old(Snapshot()), email, password).result
    {
      ghost var s := Snapshot();
      var res := api.Send(LoginRequest(email, password));
      if res.Fail? {
        return Threw(JsString.OrElse(ResponseMessage(res), LoginFailedText));
      }
      var t := IssuedToken(res.data);
      if !Truthy(t) {
        return Returned(Null);
      }
      store.SetItem(TokenKey, Str(ToText(t)));
      token := t;
      ghost var stored := Snapshot().env;
      ProfileFetchRun(stored);
      DropAfterFirst(stored.script, 1);
      OutcomeAfterFirst(stored.script, 0);
      OutcomeAfterFirst(s.env.script, 0);
      OutcomeAfterFirst(s.env.script, 1);
      var prof := api.Send(MeRequest);
      if prof.Ok? {
        user := prof.data;
        return Returned(prof.data);
      }
      var prof2 := api.Send(UsersMeRequest);
      if prof2.Ok? {
        user := prof2.data;
        return Returned(prof2.data);
      }
      var possibleUser := BodyUser(res.data);
      if Truthy(possibleUser) {
        user := possibleUser;
        return Returned(possibleUser);
      }
      return Returned(Null);
    }

    method Logout()
      modifies this, store, api
      ensures Snapshot() == LogoutSpec(old(Snapshot()))
    {
      var _ := api.Send(LogoutRequest);
      user := Null;
      token := Null;
      store.RemoveItem(TokenKey);
    }
  }
}
