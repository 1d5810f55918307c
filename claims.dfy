/**
 Recovering a user from the bearer token's claims (src/hooks/useAuth.tsx:77-117):
 `parseJwt` takes the second dot-separated segment of the token and decodes it;
 the claims are then mapped onto a user, each field taking the first truthy
 claim among its aliases.

 The base64url, `atob`, `decodeURIComponent` and `JSON.parse` steps are one
 foreign call, `decode`, from the payload segment to a JSON value; a failure in
 any of them is `Null`, as `parseJwt` returns `null` then.
 */
module Claims {
  import opened Wrappers
  import opened Js
  import JsString

  /** `t.split(".")[1]`, undefined when the token holds no dot. */
  function PayloadSegment(t: string): (r: Option<string>)
    ensures r.Some? <==> '.' in t
    ensures r.Some? ==> '.' !in r.value
  {
    var parts := JsString.Split(t, '.');
    if |parts| >= 2 then Some(parts[1]) else None
  }

  /** In the `header.payload.signature` shape of a JWT the segment is the payload. */
  lemma JwtPayloadSegment(header: string, payload: string, signature: string)
    requires '.' !in header && '.' !in payload && '.' !in signature
    ensures PayloadSegment(header + "." + payload + "." + signature) == Some(payload)
  {
    var parts := [header, payload, signature];
    JsString.SplitJoin(parts, '.');
    assert parts[1..] == [payload, signature] && parts[1..][1..] == [signature];
    assert JsString.Join([payload, signature], ".") == payload + "." + signature;
    assert JsString.Join(parts, ".") == header + "." + (payload + "." + signature);
    assert header + "." + (payload + "." + signature) == header + "." + payload + "." + signature;
  }

  /** `parseJwt(token)`: only a string token can be split; anything else throws and yields null. */
  function ParseJwt(decode: string -> Json, token: Json): (claims: Json)
    ensures !token.Str? ==> claims == Null
    ensures token.Str? && '.' !in token.s ==> claims == Null
    ensures token.Str? && '.' in token.s ==> claims == decode(PayloadSegment(token.s).value)
  {
    if !token.Str? then Null
    else
      match PayloadSegment(token.s)
      case None => Null
      case Some(segment) => decode(segment)
  }

  /** A JWT-shaped token yields whatever its payload segment decodes to. */
  lemma JwtClaims(decode: string -> Json, header: string, payload: string, signature: string)
    requires '.' !in header && '.' !in payload && '.' !in signature
    ensures ParseJwt(decode, Str(header + "." + payload + "." + signature)) == decode(payload)
  {
    JwtPayloadSegment(header, payload, signature);
  }

  /** The claims an alias list names, in order (`IdClaims(c)[0]` is `c.sub`, and so on). */
  function IdClaims(c: Json): seq<Json> { [Get(c, "sub"), Get(c, "id"), Get(c, "userId"), Get(c, "uid")] }
  function EmailClaims(c: Json): seq<Json> { [Get(c, "email"), Get(c, "upn"), Get(c, "preferred_username")] }
  function NameClaims(c: Json): seq<Json> { [Get(c, "name"), Get(c, "fullname"), Get(c, "preferred_username")] }
  function RoleClaims(c: Json): seq<Json> { [Get(c, "roles"), Get(c, "role"), Get(c, "authorities")] }

  /** `claims.sub || claims.id || claims.userId || claims.uid` */
  function UserId(claims: Json): (id: Json)
  {
    FirstTruthy(IdClaims(claims))
  }

  /** `claims.email || claims.upn || claims.preferred_username` */
  function UserEmail(claims: Json): (email: Json)
  {
    FirstTruthy(EmailClaims(claims))
  }

  /** `claims.name || claims.fullname || claims.preferred_username || email` */
  function UserName(claims: Json, email: Json): (name: Json)
  {
    FirstTruthy(NameClaims(claims) + [email])
  }

  /** `claims.roles || claims.role || claims.authorities || []`, a lone string wrapped in a list. */
  function UserRoles(claims: Json): (roles: Json)
    ensures var found := FirstTruthy(RoleClaims(claims));
      && (!Truthy(found) ==> roles == Arr([]))
      && (Truthy(found) && found.Str? ==> roles == Arr([found]))
      && (Truthy(found) && !found.Str? ==> roles == found)
    ensures Truthy(roles) && !roles.Str?
  {
    var roles := FirstTruthy(RoleClaims(claims) + [Arr([])]);
    RolesFallback(RoleClaims(claims));
    if Truthy(roles) && roles.Str? then Arr([roles]) else roles
  }

  /** The user rebuilt from decoded claims: exactly the four fields, each the
      first truthy alias, JavaScript `||` style (an empty string, zero, false or a
      missing claim is skipped); the name falls back to the email just derived. */
  function ClaimsToUser(claims: Json): (u: Json)
    ensures u.Obj? && u.fields.Keys == {"id", "email", "name", "roles"}
    ensures Get(u, "id") == UserId(claims) && Get(u, "email") == UserEmail(claims)
    ensures Get(u, "name") == UserName(claims, UserEmail(claims)) && Get(u, "roles") == UserRoles(claims)
  {
    var email := UserEmail(claims);
    UserRecord(UserId(claims), email, UserName(claims, email), UserRoles(claims))
  }

  /** The object literal `{ id, email, name, roles }`. */
  function UserRecord(id: Json, email: Json, name: Json, roles: Json): (u: Json)
    ensures u.Obj? && u.fields.Keys == {"id", "email", "name", "roles"}
    ensures Get(u, "id") == id && Get(u, "email") == email && Get(u, "name") == name && Get(u, "roles") == roles
  {
    var u := Obj(map["id" := id, "email" := email, "name" := name, "roles" := roles]);
    assert u.fields.Keys == {"id", "email", "name", "roles"};
    u
  }

  /** Appending `[]` to a first-truthy chain only replaces a falsy result. */
  lemma {:induction false} RolesFallback(vs: seq<Json>)
    requires |vs| > 0
    ensures FirstTruthy(vs + [Arr([])]) == if Truthy(FirstTruthy(vs)) then FirstTruthy(vs) else Arr([])
    decreases |vs|
  {
    if |vs| == 1 {
      assert (vs + [Arr([])])[1..] == [Arr([])];
    } else {
      assert (vs + [Arr([])])[1..] == vs[1..] + [Arr([])];
      RolesFallback(vs[1..]);
    }
  }

  /** Claims carrying a subject, an email and a single role string. */
  const ExampleClaims: Json := Obj(map["sub" := Str("u1"), "email" := Str("a@b.com"), "roles" := Str("Doctor")])

  /** The user recovered from `ExampleClaims`. */
  const ExampleUser: Json := Obj(map["id" := Str("u1"), "email" := Str("a@b.com"), "name" := Str("a@b.com"), "roles" := Arr([Str("Doctor")])])

  /** The worked example: the subject, the email and a single role string. */
  lemma ClaimsExample()
    ensures ClaimsToUser(ExampleClaims) == ExampleUser
  {
    ExampleId();
    ExampleEmail();
    ExampleName();
    ExampleRoles();
  }

  lemma ExampleId()
    ensures UserId(ExampleClaims) == Str("u1")
  {
    assert IdClaims(ExampleClaims)[0] == Str("u1");
    FirstTruthyStopsAtTruthy(IdClaims(ExampleClaims), 0);
  }

  lemma ExampleEmail()
    ensures UserEmail(ExampleClaims) == Str("a@b.com")
  {
    assert EmailClaims(ExampleClaims)[0] == Str("a@b.com");
    FirstTruthyStopsAtTruthy(EmailClaims(ExampleClaims), 0);
  }

  lemma ExampleName()
    ensures UserName(ExampleClaims, Str("a@b.com")) == Str("a@b.com")
  {
    var names := NameClaims(ExampleClaims) + [Str("a@b.com")];
    assert names[0] == Undefined && names[1] == Undefined && names[2] == Undefined && names[3] == Str("a@b.com");
    FirstTruthyStopsAtTruthy(names, 3);
  }

  lemma ExampleRoles()
    ensures UserRoles(ExampleClaims) == Arr([Str("Doctor")])
  {
    assert RoleClaims(ExampleClaims)[0] == Str("Doctor");
    FirstTruthyStopsAtTruthy(RoleClaims(ExampleClaims), 0);
  }
}
