/** The route table: which guards each endpoint runs and which permissions
    it declares, composed into one admission decision per request. */
module Routes {
  import opened Entities
  import opened Store
  import opened Keys
  import opened Guards

  datatype Route =
    | InitDeposit | PaystackWebhook | DepositStatus | Balance | TransferFunds | TransactionHistory
    | CreateKey | RolloverKey | RevokeKey | ListKeys

  predicate WalletRoute(r: Route) {
    r in {InitDeposit, DepositStatus, Balance, TransferFunds, TransactionHistory}
  }

  predicate KeyRoute(r: Route) {
    r in {CreateKey, RolloverKey, RevokeKey, ListKeys}
  }

  /** The guard chain an endpoint declares. */
  datatype GuardChain = Open | FlexibleOnly | FlexibleThenPermission | SessionOnly

  function ChainOf(r: Route): (c: GuardChain)
    ensures c == Open <==> r == PaystackWebhook
    ensures c == SessionOnly <==> KeyRoute(r)
    ensures c in {FlexibleOnly, FlexibleThenPermission} <==> WalletRoute(r)
  {
    match r
    case PaystackWebhook => Open
    case DepositStatus => FlexibleOnly
    case InitDeposit | Balance | TransferFunds | TransactionHistory => FlexibleThenPermission
    case CreateKey | RolloverKey | RevokeKey | ListKeys => SessionOnly
  }

  /** The permissions an endpoint declares, if it declares any. */
  function RequiredPermissions(r: Route): (p: Option<seq<Permission>>)
    ensures p.Some? <==> ChainOf(r) == FlexibleThenPermission
    ensures p.Some? ==> |p.value| == 1
    ensures r in {Balance, TransactionHistory} ==> p == Some([ReadPermission])
  {
    match r
    case InitDeposit => Some([DepositPermission])
    case Balance => Some([ReadPermission])
    case TransferFunds => Some([TransferPermission])
    case TransactionHistory => Some([ReadPermission])
    case _ => None
  }

  /** What the handler finds recorded on an admitted request. */
  datatype Admission = Admission(user: Option<RequestUser>, authType: Option<AuthType>, permissions: Option<seq<Permission>>)

  /** The admission decision of one request. The key-management routes'
      JwtAuthGuard verifies under the session secret that signs tokens at
      sign-in (`sessionVerify`); the wallet routes' FlexibleAuthGuard is
      configured by the wallet module, which reads a differently named
      secret (`walletVerify`). */
  function Admit(r: Route, h: Headers, sessionVerify: string -> Option<Claims>, walletVerify: string -> Option<Claims>,
                 users: seq<User>, keys: seq<ApiKey>, hash: string -> string, now: Time): (a: Result<Admission>)
    ensures ChainOf(r) == Open ==> a.Ok?
    ensures a.Err? ==> a.error.Unauthorized? || (a.error.Forbidden? && ChainOf(r) == FlexibleThenPermission)
    ensures KeyRoute(r) ==> (a.Ok? <==> JwtAuth(h, sessionVerify).Ok?)
    ensures WalletRoute(r) && a.Ok? ==> FlexibleAuth(h, walletVerify, users, keys, hash, now).Ok?
  {
    match ChainOf(r)
    case Open => Ok(Admission(None, None, None))
    case SessionOnly =>
      (match JwtAuth(h, sessionVerify)
       case Err(e) => Err(e)
       case Ok(u) => Ok(Admission(Some(u), None, None)))
    case FlexibleOnly =>
      (match FlexibleAuth(h, walletVerify, users, keys, hash, now)
       case Err(e) => Err(e)
       case Ok(g) => Ok(Admission(g.user, Some(g.authType), Some(g.permissions))))
    case FlexibleThenPermission =>
      match FlexibleAuth(h, walletVerify, users, keys, hash, now)
      case Err(e) => Err(e)
      case Ok(g) =>
        match PermissionCheck(RequiredPermissions(r), Some(g.authType), Some(g.permissions))
        case Err(e) => Err(e)
        case Ok(_) => Ok(Admission(g.user, Some(g.authType), Some(g.permissions)))
  }

  /** The payment processor's callback needs no credentials at all. */
  lemma WebhookIsOpen(h: Headers, sessionVerify: string -> Option<Claims>, walletVerify: string -> Option<Claims>,
                      users: seq<User>, keys: seq<ApiKey>, hash: string -> string, now: Time)
    ensures Admit(PaystackWebhook, h, sessionVerify, walletVerify, users, keys, hash, now) == Ok(Admission(None, None, None))
  {
  }

  /** A session token opens every wallet endpoint as its subject, provided
      the wallet routes' secret accepts it as the session secret does. */
  lemma SessionOpensWalletRoutes(r: Route, h: Headers, sessionVerify: string -> Option<Claims>,
                                 walletVerify: string -> Option<Claims>, users: seq<User>,
                                 keys: seq<ApiKey>, hash: string -> string, now: Time, c: Claims)
    requires WalletRoute(r)
    requires BearerClaims(h, sessionVerify) == Some(c)
    requires BearerClaims(h, walletVerify) == BearerClaims(h, sessionVerify)
    ensures Admit(r, h, sessionVerify, walletVerify, users, keys, hash, now)
         == Ok(Admission(Some(TokenUser(c.sub, c.email)), Some(JwtScheme), Some(AllPermissions)))
  {
  }

  /** When the two secrets disagree on a token, a session token that the
      wallet secret refuses opens no wallet endpoint by itself. */
  lemma SessionTokenRefusedBySecretMismatch(r: Route, h: Headers, sessionVerify: string -> Option<Claims>,
                                            walletVerify: string -> Option<Claims>, users: seq<User>,
                                            keys: seq<ApiKey>, hash: string -> string, now: Time)
    requires WalletRoute(r) && h.xApiKey.None?
    requires BearerClaims(h, sessionVerify).Some? && BearerClaims(h, walletVerify).None?
    ensures JwtAuth(h, sessionVerify).Ok?
    ensures Admit(r, h, sessionVerify, walletVerify, users, keys, hash, now) == Err(Unauthorized(NoValidAuthentication))
  {
    assert h.authorization.value[..6] == "Bearer";
  }

  /** Each family of routes reads only its own secret. */
  lemma RoutesReadTheirOwnSecret(r: Route, h: Headers, sv: string -> Option<Claims>, sv': string -> Option<Claims>,
                                 wv: string -> Option<Claims>, wv': string -> Option<Claims>, users: seq<User>,
                                 keys: seq<ApiKey>, hash: string -> string, now: Time)
    ensures WalletRoute(r) ==> Admit(r, h, sv, wv, users, keys, hash, now) == Admit(r, h, sv', wv, users, keys, hash, now)
    ensures KeyRoute(r) ==> Admit(r, h, sv, wv, users, keys, hash, now) == Admit(r, h, sv, wv', users, keys, hash, now)
  {
  }

  /** Through an API key alone, an endpoint with declared permissions
      admits exactly the keys that hold all of them, and otherwise fails
      Forbidden; deposit status needs a valid key and nothing more. */
  lemma KeyOpensWhatItHolds(r: Route, h: Headers, sessionVerify: string -> Option<Claims>,
                            walletVerify: string -> Option<Claims>, users: seq<User>,
                            keys: seq<ApiKey>, hash: string -> string, now: Time, v: ValidatedKey)
    requires WalletRoute(r)
    requires BearerClaims(h, walletVerify).None? && Truthy(h.xApiKey)
    requires KeyValidation(keys, hash, h.xApiKey.value, now) == Some(v)
    ensures var a := Admit(r, h, sessionVerify, walletVerify, users, keys, hash, now);
      && (RequiredPermissions(r).None? ==> a.Ok?)
      && (RequiredPermissions(r).Some? ==>
            && (a.Ok? <==> forall p :: p in RequiredPermissions(r).value ==> p in v.permissions)
            && (a.Err? ==> a.error.Forbidden?))
      && (a.Ok? ==> a.value.authType == Some(ApiKeyScheme) && a.value.permissions == Some(v.permissions))
  {
  }

  /** A read-only key can look but not move money. */
  lemma ReadOnlyKeyCannotMoveMoney(h: Headers, sessionVerify: string -> Option<Claims>,
                                   walletVerify: string -> Option<Claims>, users: seq<User>,
                                   keys: seq<ApiKey>, hash: string -> string, now: Time, v: ValidatedKey)
    requires BearerClaims(h, walletVerify).None? && Truthy(h.xApiKey)
    requires KeyValidation(keys, hash, h.xApiKey.value, now) == Some(v)
    requires v.permissions == [ReadPermission]
    ensures Admit(Balance, h, sessionVerify, walletVerify, users, keys, hash, now).Ok?
    ensures Admit(TransactionHistory, h, sessionVerify, walletVerify, users, keys, hash, now).Ok?
    ensures Admit(TransferFunds, h, sessionVerify, walletVerify, users, keys, hash, now).Err?
    ensures Admit(TransferFunds, h, sessionVerify, walletVerify, users, keys, hash, now).error
         == Forbidden("Missing required permissions: transfer")
    ensures Admit(InitDeposit, h, sessionVerify, walletVerify, users, keys, hash, now).Err?
  {
    KeyOpensWhatItHolds(TransferFunds, h, sessionVerify, walletVerify, users, keys, hash, now, v);
    KeyOpensWhatItHolds(InitDeposit, h, sessionVerify, walletVerify, users, keys, hash, now, v);
    assert TransferPermission in RequiredPermissions(TransferFunds).value && TransferPermission !in v.permissions;
    assert DepositPermission in RequiredPermissions(InitDeposit).value && DepositPermission !in v.permissions;
  }

  /** Key management is session-only: without an Authorization header an
      API key, however privileged, is Unauthorized there. */
  lemma KeyRoutesNeedSession(r: Route, h: Headers, sessionVerify: string -> Option<Claims>,
                             walletVerify: string -> Option<Claims>, users: seq<User>,
                             keys: seq<ApiKey>, hash: string -> string, now: Time)
    requires KeyRoute(r)
    ensures h.authorization.None? ==> Admit(r, h, sessionVerify, walletVerify, users, keys, hash, now) == Err(Unauthorized(NoToken))
    ensures Admit(r, h, sessionVerify, walletVerify, users, keys, hash, now).Ok? ==>
      h.authorization.Some? && StartsWith(h.authorization.value, "Bearer")
      && sessionVerify(From7(h.authorization.value)).Some?
  {
  }

  /** With no credentials, every endpoint but the webhook refuses with
      Unauthorized. */
  lemma NoCredentialsNoEntry(r: Route, sessionVerify: string -> Option<Claims>, walletVerify: string -> Option<Claims>,
                             users: seq<User>, keys: seq<ApiKey>, hash: string -> string, now: Time)
    requires r != PaystackWebhook
    ensures var a := Admit(r, Headers(None, None), sessionVerify, walletVerify, users, keys, hash, now);
      a.Err? && a.error.Unauthorized?
  {
  }
}
