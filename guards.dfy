/** The authentication and authorization guards that run before a handler.
    A guard either admits the request (after recording who is calling on it)
    or fails with an error; none of them ever answers "no" by returning
    false. Token verification is a parameter: `verify` yields the claims of
    a token that verifies and nothing otherwise. Each guard is given its own
    verifier, since the modules that provide them read their secrets from
    separately named settings. */
module Guards {
  import opened Entities
  import opened Store
  import opened Keys

  const NoValidAuthentication: string := "No valid authentication provided"
  const NoApiKey: string := "No API key provided"
  const InvalidApiKey: string := "Invalid, expired or revoked API key"
  const NoToken: string := "No token provided"
  const InvalidToken: string := "Invalid or expired token"
  const MissingPermissionsPrefix: string := "Missing required permissions: "

  datatype Headers = Headers(authorization: Option<string>, xApiKey: Option<string>)
  /** The claims a session token carries. */
  datatype Claims = Claims(sub: UserId, email: string)
  datatype AuthType = JwtScheme | ApiKeyScheme

  /** Who the request is from: the claims of a token, or the stored owner
      of an API key. */
  datatype RequestUser = TokenUser(id: UserId, email: string) | KeyOwner(user: User)

  /** What a successful authentication records on the request. */
  datatype Grant = Grant(user: Option<RequestUser>, apiKey: Option<ApiKey>, permissions: seq<Permission>,
                         authType: AuthType)

  predicate StartsWith(s: string, prefix: string) {
    |prefix| <= |s| && s[..|prefix|] == prefix
  }

  /** A header value JavaScript treats as true: present and non-empty. */
  predicate Truthy(h: Option<string>) {
    h.Some? && h.value != ""
  }

  /** `substring(7)`: everything from index 7, or nothing for a shorter string. */
  function From7(s: string): (t: string)
    ensures |s| >= 7 ==> s == s[..7] + t
    ensures |s| < 7 ==> t == ""
  {
    if |s| >= 7 then s[7..] else ""
  }

  /** The claims of the bearer token in the Authorization header, when the
      header starts with "Bearer " and the token verifies. */
  function BearerClaims(h: Headers, verify: string -> Option<Claims>): Option<Claims> {
    if h.authorization.Some? && StartsWith(h.authorization.value, "Bearer ") then verify(From7(h.authorization.value))
    else None
  }

  /** The owner row of a key, loaded with it through the key's owner column. */
  function OwnerOf(users: seq<User>, k: ApiKey): Option<RequestUser> {
    if k.userId < |users| then Some(KeyOwner(users[k.userId])) else None
  }

  function KeyGrant(users: seq<User>, v: ValidatedKey): Grant {
    Grant(OwnerOf(users, v.apiKey), Some(v.apiKey), v.permissions, ApiKeyScheme)
  }

  /** FlexibleAuthGuard: a verifying bearer token first; otherwise an API key
      that validates; otherwise Unauthorized. */
  function FlexibleAuth(h: Headers, verify: string -> Option<Claims>, users: seq<User>, keys: seq<ApiKey>,
                        hash: string -> string, now: Time): (r: Result<Grant>)
    ensures r.Err? ==> r == Err(Unauthorized(NoValidAuthentication))
    ensures BearerClaims(h, verify).Some? ==> r.Ok? && r.value.authType == JwtScheme
    ensures r.Ok? && r.value.authType == ApiKeyScheme ==>
      Truthy(h.xApiKey) && KeyValidation(keys, hash, h.xApiKey.value, now).Some?
  {
    match BearerClaims(h, verify)
    case Some(c) => Ok(Grant(Some(TokenUser(c.sub, c.email)), None, AllPermissions, JwtScheme))
    case None =>
      if Truthy(h.xApiKey) then
        match KeyValidation(keys, hash, h.xApiKey.value, now)
        case Some(v) => Ok(KeyGrant(users, v))
        case None => Err(Unauthorized(NoValidAuthentication))
      else Err(Unauthorized(NoValidAuthentication))
  }

  /** ApiKeyGuard. The source's checks of `revoked` and `expiresAt` read
      fields of the header string, which never exist, so they never fire;
      revoked and expired keys are refused by validation instead. */
  function ApiKeyAuth(h: Headers, users: seq<User>, keys: seq<ApiKey>, hash: string -> string, now: Time): (r: Result<Grant>)
    ensures r.Ok? <==> Truthy(h.xApiKey) && KeyValidation(keys, hash, h.xApiKey.value, now).Some?
    ensures r.Err? ==> r.error.Unauthorized?
  {
    if !Truthy(h.xApiKey) then Err(Unauthorized(NoApiKey))
    else match KeyValidation(keys, hash, h.xApiKey.value, now)
      case None => Err(Unauthorized(InvalidApiKey))
      case Some(v) => Ok(KeyGrant(users, v))
  }

  /** JwtAuthGuard: the header must start with "Bearer" (no space needed);
      the token is read from index 7 on. */
  function JwtAuth(h: Headers, verify: string -> Option<Claims>): (r: Result<RequestUser>)
    ensures r.Ok? <==> Truthy(h.authorization) && StartsWith(h.authorization.value, "Bearer")
                       && verify(From7(h.authorization.value)).Some?
    ensures r.Err? ==> r.error.Unauthorized?
  {
    if !Truthy(h.authorization) || !StartsWith(h.authorization.value, "Bearer") then Err(Unauthorized(NoToken))
    else match verify(From7(h.authorization.value))
      case None => Err(Unauthorized(InvalidToken))
      case Some(c) => Ok(TokenUser(c.sub, c.email))
  }

  /** The stored names of the permissions, in order. */
  function Names(ps: seq<Permission>): (r: seq<string>)
    ensures |r| == |ps| && forall i :: 0 <= i < |ps| ==> ParsePermission(r[i]) == Some(ps[i])
  {
    if ps == [] then []
    else
      PermissionNameRoundTrip(ps[0]);
      [PermissionName(ps[0])] + Names(ps[1..])
  }

  /** PermissionGuard over the route's declared permissions and what
      authentication recorded on the request. */
  function PermissionCheck(required: Option<seq<Permission>>, authType: Option<AuthType>,
                           held: Option<seq<Permission>>): (r: Result<bool>)
    ensures r.Ok? <==> required.None? || authType == Some(JwtScheme)
                       || forall p :: p in required.value ==> p in (if held.Some? then held.value else [])
    ensures r.Ok? ==> r.value
    ensures r.Err? ==> r.error.Forbidden?
  {
    if required.None? then Ok(true)
    else if authType == Some(JwtScheme) then Ok(true)
    else
      var mine := if held.Some? then held.value else [];
      if forall p :: p in required.value ==> p in mine then Ok(true)
      else Err(Forbidden(MissingPermissionsPrefix + Join(Names(required.value), ", ")))
  }

  // --------------------------------------------------------------- lemmas

  /** A verifying bearer token wins, whatever API key comes with it: the
      caller is the token's subject with every permission. */
  lemma FlexibleJwtFirst(h: Headers, verify: string -> Option<Claims>, users: seq<User>, keys: seq<ApiKey>,
                         hash: string -> string, now: Time, c: Claims)
    requires h.authorization.Some? && StartsWith(h.authorization.value, "Bearer ")
    requires verify(h.authorization.value[7..]) == Some(c)
    ensures FlexibleAuth(h, verify, users, keys, hash, now)
         == Ok(Grant(Some(TokenUser(c.sub, c.email)), None, [DepositPermission, TransferPermission, ReadPermission], JwtScheme))
  {
  }

  /** A missing, malformed or failing token does not fail the request: the
      outcome is that of the same request without an Authorization header. */
  lemma FlexibleFallsThrough(h: Headers, verify: string -> Option<Claims>, users: seq<User>, keys: seq<ApiKey>,
                             hash: string -> string, now: Time)
    requires BearerClaims(h, verify).None?
    ensures FlexibleAuth(h, verify, users, keys, hash, now)
         == FlexibleAuth(h.(authorization := None), verify, users, keys, hash, now)
  {
  }

  /** Without a verifying token, a validating API key admits the request as
      the key's owner, with the key's permissions. */
  lemma FlexibleApiKey(h: Headers, verify: string -> Option<Claims>, users: seq<User>, keys: seq<ApiKey>,
                       hash: string -> string, now: Time, v: ValidatedKey)
    requires BearerClaims(h, verify).None? && Truthy(h.xApiKey)
    requires KeyValidation(keys, hash, h.xApiKey.value, now) == Some(v)
    ensures var r := FlexibleAuth(h, verify, users, keys, hash, now);
      && r.Ok? && r.value.authType == ApiKeyScheme && r.value.apiKey == Some(v.apiKey)
      && r.value.permissions == v.apiKey.permissions
      && (v.apiKey.userId < |users| ==> r.value.user == Some(KeyOwner(users[v.apiKey.userId])))
  {
    KeyValidationCharacterized(keys, hash, h.xApiKey.value, now);
  }

  /** The dispatcher fails exactly when neither scheme succeeds, and then
      always with Unauthorized. */
  lemma FlexibleFailsOnlyUnauthorized(h: Headers, verify: string -> Option<Claims>, users: seq<User>,
                                      keys: seq<ApiKey>, hash: string -> string, now: Time)
    ensures var r := FlexibleAuth(h, verify, users, keys, hash, now);
      && (r.Err? <==> BearerClaims(h, verify).None?
                      && (!Truthy(h.xApiKey) || KeyValidation(keys, hash, h.xApiKey.value, now).None?))
      && (r.Err? ==> r.error == Unauthorized(NoValidAuthentication))
  {
  }

  /** With no Authorization header, the dispatcher admits exactly the
      requests the API-key guard admits, recording the same grant. */
  lemma ApiKeyGuardAgreesWithFlexible(h: Headers, verify: string -> Option<Claims>, users: seq<User>,
                                      keys: seq<ApiKey>, hash: string -> string, now: Time)
    requires h.authorization.None?
    ensures var f := FlexibleAuth(h, verify, users, keys, hash, now);
      var a := ApiKeyAuth(h, users, keys, hash, now);
      (f.Ok? <==> a.Ok?) && (f.Ok? ==> f.value == a.value)
  {
  }

  /** The API-key guard refuses only with Unauthorized, never Forbidden:
      a missing header, or a key that does not validate. */
  lemma ApiKeyGuardOnlyUnauthorized(h: Headers, users: seq<User>, keys: seq<ApiKey>, hash: string -> string, now: Time)
    ensures var r := ApiKeyAuth(h, users, keys, hash, now);
      && (!Truthy(h.xApiKey) ==> r == Err(Unauthorized(NoApiKey)))
      && (Truthy(h.xApiKey) && KeyValidation(keys, hash, h.xApiKey.value, now).None? ==> r == Err(Unauthorized(InvalidApiKey)))
      && (r.Err? ==> r.error.Unauthorized?)
  {
  }

  /** A stored key that is revoked, or whose expiry has passed, is refused
      as Unauthorized by the API-key guard. */
  lemma ApiKeyGuardRefusesDeadKey(h: Headers, users: seq<User>, keys: seq<ApiKey>, hash: string -> string,
                                  now: Time, i: nat)
    requires KeysOk(keys, |users|)
    requires Truthy(h.xApiKey) && i < |keys| && Matches(hash, h.xApiKey.value, keys[i])
    requires keys[i].revoked || now > keys[i].expiresAt
    ensures ApiKeyAuth(h, users, keys, hash, now) == Err(Unauthorized(InvalidApiKey))
  {
    ValidationOfStoredKey(keys, |users|, hash, h.xApiKey.value, now, i);
  }

  /** The API-key guard's outcome is fixed by the header's presence and the
      validation result alone. */
  lemma ApiKeyGuardDependsOnValidation(h: Headers, users: seq<User>, keys: seq<ApiKey>, keys': seq<ApiKey>,
                                       hash: string -> string, hash': string -> string, now: Time, now': Time)
    requires Truthy(h.xApiKey) ==> KeyValidation(keys, hash, h.xApiKey.value, now) == KeyValidation(keys', hash', h.xApiKey.value, now')
    ensures ApiKeyAuth(h, users, keys, hash, now) == ApiKeyAuth(h, users, keys', hash', now')
  {
  }

  /** The session guard accepts "Bearer" without the space: it reads the
      token from index 7 of any header that starts with "Bearer". */
  lemma JwtGuardReadsFromSeven(h: Headers, verify: string -> Option<Claims>, c: Claims)
    requires h.authorization.Some? && |h.authorization.value| >= 7 && StartsWith(h.authorization.value, "Bearer")
    requires verify(h.authorization.value[7..]) == Some(c)
    ensures JwtAuth(h, verify) == Ok(TokenUser(c.sub, c.email))
  {
  }

  /** The session guard fails with Unauthorized: "No token provided" when
      the header is missing or lacks the "Bearer" prefix, "Invalid or
      expired token" when the token does not verify. */
  lemma JwtGuardFailures(h: Headers, verify: string -> Option<Claims>)
    ensures var r := JwtAuth(h, verify);
      && ((h.authorization.None? || !StartsWith(h.authorization.value, "Bearer")) ==> r == Err(Unauthorized(NoToken)))
      && ((h.authorization.Some? && StartsWith(h.authorization.value, "Bearer") && verify(From7(h.authorization.value)).None?)
            ==> r == Err(Unauthorized(InvalidToken)))
      && (r.Err? ==> r.error.Unauthorized?)
  {
  }

  /** On a header both guards read as a bearer token, they identify the
      same caller, provided their two verifiers agree on that token. Each
      guard is configured with its own secret. */
  lemma JwtGuardAgreesWithFlexible(h: Headers, jwtVerify: string -> Option<Claims>,
                                   flexibleVerify: string -> Option<Claims>, users: seq<User>,
                                   keys: seq<ApiKey>, hash: string -> string, now: Time)
    requires BearerClaims(h, flexibleVerify).Some?
    requires jwtVerify(From7(h.authorization.value)) == flexibleVerify(From7(h.authorization.value))
    ensures JwtAuth(h, jwtVerify).Ok?
    ensures FlexibleAuth(h, flexibleVerify, users, keys, hash, now).value.user == Some(JwtAuth(h, jwtVerify).value)
  {
    assert h.authorization.value[..6] == "Bearer";
  }

  /** A route that declares no permissions admits every request, and a
      session-token caller passes any declaration. */
  lemma PermissionFreePasses(required: Option<seq<Permission>>, authType: Option<AuthType>, held: Option<seq<Permission>>)
    ensures required.None? ==> PermissionCheck(required, authType, held) == Ok(true)
    ensures authType == Some(JwtScheme) ==> PermissionCheck(required, authType, held) == Ok(true)
  {
  }

  /** For an API-key caller the check passes exactly when every declared
      permission is held (none held when nothing was recorded), and fails
      Forbidden otherwise. */
  lemma PermissionSuperset(required: seq<Permission>, authType: Option<AuthType>, held: Option<seq<Permission>>)
    requires authType != Some(JwtScheme)
    ensures var r := PermissionCheck(Some(required), authType, held);
      && (r.Ok? <==> forall p :: p in required ==> held.Some? && p in held.value)
      && (r.Err? ==> r.error.Forbidden?)
  {
  }

  /** Holding more permissions never turns an admission into Forbidden. */
  lemma PermissionMonotone(required: Option<seq<Permission>>, authType: Option<AuthType>,
                           held: seq<Permission>, more: seq<Permission>)
    requires forall p :: p in held ==> p in more
    requires PermissionCheck(required, authType, Some(held)).Ok?
    ensures PermissionCheck(required, authType, Some(more)).Ok?
  {
  }

  // ---------------------------------------------------------------- objects

  /** The incoming request as the guards see it: fixed headers, and the
      fields authentication fills in. */
  class Request {
    const headers: Headers
    var user: Option<RequestUser>
    var apiKey: Option<ApiKey>
    var permissions: Option<seq<Permission>>
    var authType: Option<AuthType>

    constructor (headers: Headers)
      ensures this.headers == headers
      ensures user.None? && apiKey.None? && permissions.None? && authType.None?
    {
      this.headers := headers;
      user, apiKey, permissions, authType := None, None, None, None;
    }
  }

  class FlexibleAuthGuard {
    const verify: string -> Option<Claims>
    const keys: KeysService

    constructor (verify: string -> Option<Claims>, keys: KeysService)
      ensures this.verify == verify && this.keys == keys
    {
      this.verify := verify;
      this.keys := keys;
    }

    method CanActivate(req: Request, now: Time) returns (r: Result<bool>)
      modifies req
      ensures var g := FlexibleAuth(req.headers, verify, keys.db.users, keys.db.apiKeys, keys.hash, now);
        && (g.Err? ==> r == Err(g.error) && unchanged(req))
        && (g.Ok? ==> && r == Ok(true)
                      && req.user == g.value.user
                      && req.apiKey == (if g.value.apiKey.Some? then g.value.apiKey else old(req.apiKey))
                      && req.permissions == Some(g.value.permissions)
                      && req.authType == Some(g.value.authType))
    {
      var claims := BearerClaims(req.headers, verify);
      if claims.Some? {
        req.user := Some(TokenUser(claims.value.sub, claims.value.email));
        req.authType := Some(JwtScheme);
        req.permissions := Some([DepositPermission, TransferPermission, ReadPermission]);
        return Ok(true);
      }
      if Truthy(req.headers.xApiKey) {
        var result := keys.ValidateApiKey(req.headers.xApiKey.value, now);
        if result.Some? {
          req.user := OwnerOf(keys.db.users, result.value.apiKey);
          req.apiKey := Some(result.value.apiKey);
          req.permissions := Some(result.value.permissions);
          req.authType := Some(ApiKeyScheme);
          return Ok(true);
        }
      }
      return Err(Unauthorized(NoValidAuthentication));
    }
  }

  class ApiKeyGuard {
    const keys: KeysService

    constructor (keys: KeysService)
      ensures this.keys == keys
    {
      this.keys := keys;
    }

    method CanActivate(req: Request, now: Time) returns (r: Result<bool>)
      modifies req
      ensures var g := ApiKeyAuth(req.headers, keys.db.users, keys.db.apiKeys, keys.hash, now);
        && (g.Err? ==> r == Err(g.error) && unchanged(req))
        && (g.Ok? ==> && r == Ok(true)
                      && req.user == g.value.user && req.apiKey == g.value.apiKey
                      && req.permissions == Some(g.value.permissions) && req.authType == Some(ApiKeyScheme))
    {
      if !Truthy(req.headers.xApiKey) {
        return Err(Unauthorized(NoApiKey));
      }
      var result := keys.ValidateApiKey(req.headers.xApiKey.value, now);
      if result.None? {
        return Err(Unauthorized(InvalidApiKey));
      }
      req.user := OwnerOf(keys.db.users, result.value.apiKey);
      req.apiKey := Some(result.value.apiKey);
      req.permissions := Some(result.value.permissions);
      req.authType := Some(ApiKeyScheme);
      return Ok(true);
    }
  }

  class JwtAuthGuard {
    const verify: string -> Option<Claims>

    constructor (verify: string -> Option<Claims>)
      ensures this.verify == verify
    {
      this.verify := verify;
    }

    /** Records only the caller; permissions and the scheme stay as they were. */
    method CanActivate(req: Request) returns (r: Result<bool>)
      modifies req`user
      ensures var g := JwtAuth(req.headers, verify);
        && (g.Err? ==> r == Err(g.error) && req.user == old(req.user))
        && (g.Ok? ==> r == Ok(true) && req.user == Some(g.value))
    {
      var header := req.headers.authorization;
      if !Truthy(header) || !StartsWith(header.value, "Bearer") {
        return Err(Unauthorized(NoToken));
      }
      var token := From7(header.value);
      var claims := verify(token);
      if claims.None? {
        return Err(Unauthorized(InvalidToken));
      }
      req.user := Some(TokenUser(claims.value.sub, claims.value.email));
      return Ok(true);
    }
  }
}
