/** The API-key lifecycle (KeysService): issuing a key under the per-user
    quota and the permission whitelist, rolling over an expired key, revoking,
    listing, and validating a presented secret. Only `hash(secret)` is ever
    stored; `hash` stands for bcrypt, and a stored value matches a presented
    secret exactly when it is that secret's hash. */
module Keys {
  import opened Entities
  import opened Encoding
  import opened Store

  const HourMs: Time := 3600000
  const DayMs: Time := 86400000

  const QuotaReached: string := "Maximum 5 active API keys allowed"
  const QuotaReachedOnRollover: string := "Maximum 5 active API keys allowed. Revoke one first."
  const InvalidExpiry: string := "Invalid expiry"
  const InvalidPermissionsPrefix: string := "Invalid permissions: "
  const KeyNotFound: string := "API key not found"
  const NotYetExpired: string := "Key must be expired to rollover"
  const RolledOverSuffix: string := " (rolled over)"
  const Revoked: string := "API key revoked successfully"

  /** A positive span of milliseconds. */
  type Span = n: int | n > 0 witness 1

  /** The platform's month and year arithmetic on local dates: how far
      "the same time one month (one year) later" lies from a given moment. */
  datatype Calendar = Calendar(monthFrom: Time -> Span, yearFrom: Time -> Span)

  /** The duration codes a key may be issued for. */
  datatype Duration = OneHour | OneDay | OneMonth | OneYear

  function DurationCode(d: Duration): (s: string)
  {
    match d
    case OneHour => "1H"
    case OneDay => "1D"
    case OneMonth => "1M"
    case OneYear => "1Y"
  }

  /** Reads a duration code; anything other than the four codes is refused. */
  function ParseDuration(s: string): (r: Option<Duration>)
    ensures r.Some? ==> DurationCode(r.value) == s
    ensures r.None? ==> forall d :: DurationCode(d) != s
  {
    if s == "1H" then Some(OneHour)
    else if s == "1D" then Some(OneDay)
    else if s == "1M" then Some(OneMonth)
    else if s == "1Y" then Some(OneYear)
    else None
  }

  /** The moment a duration started now ends: an hour or a day of
      milliseconds for the short codes, a calendar month or year for the
      long ones, and in every case strictly later than now. */
  function Expiry(d: Duration, now: Time, calendar: Calendar): (t: Time)
    ensures now < t
    ensures d == OneHour ==> t == now + HourMs
    ensures d == OneDay ==> t == now + DayMs
  {
    match d
    case OneHour => now + HourMs
    case OneDay => now + DayMs
    case OneMonth => now + calendar.monthFrom(now)
    case OneYear => now + calendar.yearFrom(now)
  }

  /** The expiry time of a key created now with the given duration code;
      an unknown code is a BadRequest. */
  function CalculateExpiry(expiry: string, now: Time, calendar: Calendar): (r: Result<Time>)
    ensures r.Ok? <==> ParseDuration(expiry).Some?
    ensures r.Ok? ==> now < r.value && r.value == Expiry(ParseDuration(expiry).value, now, calendar)
    ensures r.Err? ==> r.error == BadRequest(InvalidExpiry)
  {
    match ParseDuration(expiry)
    case None => Err(BadRequest(InvalidExpiry))
    case Some(d) => Ok(Expiry(d, now, calendar))
  }

  /** The 32 random bytes a secret is made from. */
  type KeyDraw = b: seq<byte> | |b| == 32 witness seq(32, _ => 0)

  /** `'sk_'` followed by the hex of 32 random bytes. */
  function GenerateKey(bytes: KeyDraw): (raw: string)
    ensures |raw| == 67
    ensures raw[..3] == "sk_" && IsHexString(raw[3..])
    ensures raw[3..] == Hex(bytes)
  {
    var raw := "sk_" + Hex(bytes);
    assert raw[3..] == Hex(bytes);
    raw
  }
  /** Distinct draws give distinct secrets. */
  lemma KeyInjective(a: KeyDraw, b: KeyDraw)
    requires GenerateKey(a) == GenerateKey(b)
    ensures a == b
  {
    assert Hex(a) == GenerateKey(a)[3..];
    HexInjective(a, b);
  }


  datatype CreateKeyDto = CreateKeyDto(name: string, permissions: seq<string>, expiry: string)
  datatype RolloverKeyDto = RolloverKeyDto(expiredKeyId: KeyId, expiry: string)
  datatype RolloverReply = RolloverReply(apiKey: string, expiresAt: Time, permissions: seq<Permission>)
  /** A listed key: no secret hash and no permissions. */
  datatype KeyView = KeyView(id: KeyId, name: string, expiresAt: Time, revoked: bool, createdAt: Time)
  datatype ValidatedKey = ValidatedKey(apiKey: ApiKey, permissions: seq<Permission>)

  datatype KeyOutcome<T> = KeyOutcome(keys: seq<ApiKey>, result: Result<T>)

  /** The requested names outside the whitelist, in request order. */
  function InvalidPermissions(names: seq<string>): (r: seq<string>)
    ensures forall x :: x in r <==> x in names && ParsePermission(x).None?
    ensures r == [] <==> forall i :: 0 <= i < |names| ==> ParsePermission(names[i]).Some?
  {
    if names == [] then []
    else (if ParsePermission(names[0]).None? then [names[0]] else []) + InvalidPermissions(names[1..])
  }

  /** The filter distributes over concatenation, so it keeps the request's
      order and its repeats. */
  lemma {:induction false} InvalidPermissionsAppend(a: seq<string>, b: seq<string>)
    ensures InvalidPermissions(a + b) == InvalidPermissions(a) + InvalidPermissions(b)
  {
    if a == [] {
      assert a + b == b;
    } else {
      var head := if ParsePermission(a[0]).None? then [a[0]] else [];
      assert (a + b)[0] == a[0] && (a + b)[1..] == a[1..] + b;
      calc {
        InvalidPermissions(a + b);
        head + InvalidPermissions(a[1..] + b);
        { InvalidPermissionsAppend(a[1..], b); }
        head + (InvalidPermissions(a[1..]) + InvalidPermissions(b));
        (head + InvalidPermissions(a[1..])) + InvalidPermissions(b);
      }
    }
  }

  /** The stored permission list of a whitelisted request, element by element. */
  function ParsePermissions(names: seq<string>): (r: seq<Permission>)
    requires InvalidPermissions(names) == []
    ensures |r| == |names| && forall i :: 0 <= i < |names| ==> PermissionName(r[i]) == names[i]
  {
    if names == [] then [] else [ParsePermission(names[0]).value] + ParsePermissions(names[1..])
  }

  function Join(parts: seq<string>, separator: string): string {
    if parts == [] then ""
    else if |parts| == 1 then parts[0]
    else parts[0] + separator + Join(parts[1..], separator)
  }

  /** The datastore's check on inserting a key record: the stored hash is a
      unique column and the owner a foreign key. */
  function SaveKey(userCount: nat, keys: seq<ApiKey>, record: ApiKey): (r: Result<seq<ApiKey>>)
    ensures r.Ok? <==> !HasKeyHash(keys, record.key) && record.userId < userCount
    ensures r.Ok? ==> r.value == keys + [record]
  {
    if HasKeyHash(keys, record.key) then Err(Internal(UniqueViolation))
    else if record.userId >= userCount then Err(Internal(ForeignKeyViolation))
    else Ok(keys + [record])
  }

  function CreateKeyStep(userCount: nat, keys: seq<ApiKey>, hash: string -> string, userId: UserId,
                         dto: CreateKeyDto, rawBytes: KeyDraw, now: Time, calendar: Calendar): (o: KeyOutcome<ApiKey>)
    ensures o.result.Err? ==> o.keys == keys
    ensures o.result.Ok? ==>
      && ActiveCount(keys, userId) < MaxActiveKeys
      && o.result.value.key == GenerateKey(rawBytes)
      && o.keys == keys + [o.result.value.(key := hash(GenerateKey(rawBytes)))]
  {
    if ActiveCount(keys, userId) >= MaxActiveKeys then KeyOutcome(keys, Err(Forbidden(QuotaReached)))
    else
      var invalid := InvalidPermissions(dto.permissions);
      if invalid != [] then KeyOutcome(keys, Err(BadRequest(InvalidPermissionsPrefix + Join(invalid, ", "))))
      else
        var raw := GenerateKey(rawBytes);
        match CalculateExpiry(dto.expiry, now, calendar)
        case Err(e) => KeyOutcome(keys, Err(e))
        case Ok(expiresAt) =>
          var record := ApiKey(|keys|, hash(raw), dto.name, ParsePermissions(dto.permissions), expiresAt, false, userId, now);
          match SaveKey(userCount, keys, record)
          case Err(e) => KeyOutcome(keys, Err(e))
          case Ok(keys') => KeyOutcome(keys', Ok(record.(key := raw)))
  }

  function RolloverStep(userCount: nat, keys: seq<ApiKey>, hash: string -> string, userId: UserId,
                        dto: RolloverKeyDto, rawBytes: KeyDraw, now: Time, calendar: Calendar): (o: KeyOutcome<RolloverReply>)
    ensures o.result.Err? ==> o.keys == keys
    ensures o.result.Ok? ==>
      && |o.keys| == |keys| + 1 && o.keys[..|keys|] == keys
      && o.result.value.apiKey == GenerateKey(rawBytes)
      && o.keys[|keys|].key == hash(o.result.value.apiKey) && !o.keys[|keys|].revoked
      && o.keys[|keys|].userId == userId && o.keys[|keys|].expiresAt == o.result.value.expiresAt
  {
    match FindKeyOfUser(keys, dto.expiredKeyId, userId)
    case None => KeyOutcome(keys, Err(NotFound(KeyNotFound)))
    case Some(i) =>
      var oldKey := keys[i];
      if now <= oldKey.expiresAt then KeyOutcome(keys, Err(BadRequest(NotYetExpired)))
      else if ActiveCount(keys, userId) >= MaxActiveKeys then KeyOutcome(keys, Err(Conflict(QuotaReachedOnRollover)))
      else
        var raw := GenerateKey(rawBytes);
        match CalculateExpiry(dto.expiry, now, calendar)
        case Err(e) => KeyOutcome(keys, Err(e))
        case Ok(expiresAt) =>
          var record := ApiKey(|keys|, hash(raw), oldKey.name + RolledOverSuffix, oldKey.permissions, expiresAt,
                               false, userId, now);
          match SaveKey(userCount, keys, record)
          case Err(e) => KeyOutcome(keys, Err(e))
          case Ok(keys') => KeyOutcome(keys', Ok(RolloverReply(raw, expiresAt, oldKey.permissions)))
  }

  function RevokeStep(keys: seq<ApiKey>, keyId: KeyId, userId: UserId): (o: KeyOutcome<string>)
    ensures |o.keys| == |keys|
    ensures o.result.Err? ==> o.keys == keys
    ensures forall j :: 0 <= j < |keys| && o.keys[j] != keys[j] ==>
      o.keys[j] == keys[j].(revoked := true) && keys[j].id == keyId && keys[j].userId == userId
  {
    match FindKeyOfUser(keys, keyId, userId)
    case None => KeyOutcome(keys, Err(NotFound(KeyNotFound)))
    case Some(i) => KeyOutcome(keys[i := keys[i].(revoked := true)], Ok(Revoked))
  }

  function KeyEntry(k: ApiKey): KeyView {
    KeyView(k.id, k.name, k.expiresAt, k.revoked, k.createdAt)
  }

  /** The user's keys, newest first, without secrets or permissions. */
  function ListApiKeys(keys: seq<ApiKey>, userId: UserId): (r: seq<KeyView>)
    ensures forall v :: v in r ==> exists i :: 0 <= i < |keys| && keys[i].userId == userId && v == KeyEntry(keys[i])
    ensures forall i :: 0 <= i < |keys| && keys[i].userId == userId ==> KeyEntry(keys[i]) in r
  {
    NewestFirst(keys, (k: ApiKey) => k.userId == userId, KeyEntry)
  }

  /** With no keys the listing is empty; a newly stored key of the user comes
      first, ahead of the older keys, each listed once. */
  lemma ListApiKeysNewestFirst(keys: seq<ApiKey>, k: ApiKey, userId: UserId)
    ensures ListApiKeys([], userId) == []
    ensures ListApiKeys(keys + [k], userId)
         == (if k.userId == userId then [KeyEntry(k)] else []) + ListApiKeys(keys, userId)
  {
    NewestFirstAppend(keys, k, (k: ApiKey) => k.userId == userId, KeyEntry);
  }

  predicate Matches(hash: string -> string, rawKey: string, k: ApiKey) {
    hash(rawKey) == k.key
  }

  /** `validateApiKey`: the first record whose hash matches decides; a revoked
      or expired one (expired strictly after `expiresAt`) yields nothing. */
  function KeyValidation(keys: seq<ApiKey>, hash: string -> string, rawKey: string, now: Time): (r: Option<ValidatedKey>)
    ensures r.Some? ==>
      && r.value.apiKey in keys && Matches(hash, rawKey, r.value.apiKey)
      && !r.value.apiKey.revoked && now <= r.value.apiKey.expiresAt
      && r.value.permissions == r.value.apiKey.permissions
  {
    match FirstIndex(keys, (k: ApiKey) => Matches(hash, rawKey, k))
    case None => None
    case Some(i) =>
      if keys[i].revoked then None
      else if now > keys[i].expiresAt then None
      else Some(ValidatedKey(keys[i], keys[i].permissions))
  }

  /** Validation succeeds exactly for a secret whose first hash match is live,
      and then hands back that record and its permissions. */
  lemma KeyValidationCharacterized(keys: seq<ApiKey>, hash: string -> string, rawKey: string, now: Time)
    ensures var r := KeyValidation(keys, hash, rawKey, now);
      && (r.Some? <==> exists i :: 0 <= i < |keys| && Matches(hash, rawKey, keys[i])
                                  && (forall j :: 0 <= j < i ==> !Matches(hash, rawKey, keys[j]))
                                  && !keys[i].revoked && now <= keys[i].expiresAt)
      && (r.Some? ==> r.value.apiKey in keys && Matches(hash, rawKey, r.value.apiKey)
                      && r.value.permissions == r.value.apiKey.permissions)
  {
    var p := (k: ApiKey) => Matches(hash, rawKey, k);
    match FirstIndex(keys, p)
    case None =>
    case Some(i) =>
      forall i' | 0 <= i' < |keys| && Matches(hash, rawKey, keys[i'])
                  && (forall j :: 0 <= j < i' ==> !Matches(hash, rawKey, keys[j]))
        ensures i' == i
      {
        assert !(i < i') && !(i' < i);
      }
  }

  /** Under unique stored hashes, a secret matching the record at `i` is
      validated by that record alone. */
  lemma ValidationOfStoredKey(keys: seq<ApiKey>, userCount: nat, hash: string -> string, rawKey: string,
                              now: Time, i: nat)
    requires KeysOk(keys, userCount) && i < |keys| && Matches(hash, rawKey, keys[i])
    ensures KeyValidation(keys, hash, rawKey, now)
         == if keys[i].revoked || now > keys[i].expiresAt then None
            else Some(ValidatedKey(keys[i], keys[i].permissions))
  {
    var f := FirstIndex(keys, (k: ApiKey) => Matches(hash, rawKey, k));
    assert f.Some?;
  }

  // --------------------------------------------------------------- lemmas

  /** With five live keys, issuing fails Forbidden and stores nothing. */
  lemma CreateRespectsQuota(userCount: nat, keys: seq<ApiKey>, hash: string -> string, userId: UserId,
                            dto: CreateKeyDto, rawBytes: KeyDraw, now: Time, calendar: Calendar)
    requires ActiveCount(keys, userId) >= MaxActiveKeys
    ensures CreateKeyStep(userCount, keys, hash, userId, dto, rawBytes, now, calendar)
         == KeyOutcome(keys, Err(Forbidden(QuotaReached)))
  {
  }

  /** Below the quota, a permission outside the whitelist or an unknown
      expiry code is a BadRequest, and nothing is stored. Permissions are
      checked first: while any name is outside the whitelist the message
      lists those names, and only then can the expiry error arise. */
  lemma CreateValidatesRequest(userCount: nat, keys: seq<ApiKey>, hash: string -> string, userId: UserId,
                               dto: CreateKeyDto, rawBytes: KeyDraw, now: Time, calendar: Calendar)
    requires ActiveCount(keys, userId) < MaxActiveKeys
    requires (exists i :: 0 <= i < |dto.permissions| && ParsePermission(dto.permissions[i]).None?)
          || ParseDuration(dto.expiry).None?
    ensures var o := CreateKeyStep(userCount, keys, hash, userId, dto, rawBytes, now, calendar);
      && o.keys == keys && o.result.Err? && o.result.error.BadRequest?
      && (InvalidPermissions(dto.permissions) != [] ==>
            o.result.error.message == InvalidPermissionsPrefix + Join(InvalidPermissions(dto.permissions), ", "))
      && (InvalidPermissions(dto.permissions) == [] ==> o.result.error.message == InvalidExpiry)
  {
  }

  /** Under the quota, with whitelisted permissions, a known expiry code, an
      unused hash and an existing owner, issuing succeeds. */
  lemma CreateSucceeds(userCount: nat, keys: seq<ApiKey>, hash: string -> string, userId: UserId,
                       dto: CreateKeyDto, rawBytes: KeyDraw, now: Time, calendar: Calendar)
    requires ActiveCount(keys, userId) < MaxActiveKeys
    requires forall i :: 0 <= i < |dto.permissions| ==> ParsePermission(dto.permissions[i]).Some?
    requires ParseDuration(dto.expiry).Some?
    requires !HasKeyHash(keys, hash(GenerateKey(rawBytes))) && userId < userCount
    ensures CreateKeyStep(userCount, keys, hash, userId, dto, rawBytes, now, calendar).result.Ok?
  {
  }

  /** A successful issue stores exactly one live record holding the hash of
      a fresh `sk_` secret of 64 hex digits, with the requested name and
      permissions and an expiry after now, and returns that record with the
      raw secret in place of the hash. */
  lemma CreateStoresHash(userCount: nat, keys: seq<ApiKey>, hash: string -> string, userId: UserId,
                         dto: CreateKeyDto, rawBytes: KeyDraw, now: Time, calendar: Calendar)
    ensures var o := CreateKeyStep(userCount, keys, hash, userId, dto, rawBytes, now, calendar);
      o.result.Ok? ==>
        var raw := o.result.value.key;
        var record := o.result.value.(key := hash(raw));
        && raw == GenerateKey(rawBytes) && |raw| == 67 && raw[..3] == "sk_" && IsHexString(raw[3..])
        && o.keys == keys + [record]
        && record.id == |keys| && !record.revoked && record.userId == userId && record.name == dto.name
        && |record.permissions| == |dto.permissions|
        && (forall i :: 0 <= i < |dto.permissions| ==> PermissionName(record.permissions[i]) == dto.permissions[i])
        && now < record.expiresAt && record.createdAt == now
  {
  }

  /** The secret handed back by a successful issue validates, with the
      requested permissions, for as long as the key lives. */
  lemma CreatedKeyValidates(userCount: nat, keys: seq<ApiKey>, hash: string -> string, userId: UserId,
                            dto: CreateKeyDto, rawBytes: KeyDraw, now: Time, calendar: Calendar, later: Time)
    requires KeysOk(keys, userCount)
    requires now <= later
    ensures var o := CreateKeyStep(userCount, keys, hash, userId, dto, rawBytes, now, calendar);
      o.result.Ok? && later <= o.result.value.expiresAt ==>
        var record := o.keys[|keys|];
        KeyValidation(o.keys, hash, o.result.value.key, later) == Some(ValidatedKey(record, record.permissions))
  {
    var o := CreateKeyStep(userCount, keys, hash, userId, dto, rawBytes, now, calendar);
    if o.result.Ok? && later <= o.result.value.expiresAt {
      CreatePreservesIntegrity(userCount, keys, hash, userId, dto, rawBytes, now, calendar);
      ValidationOfStoredKey(o.keys, userCount, hash, o.result.value.key, later, |keys|);
    }
  }

  lemma CreatePreservesIntegrity(userCount: nat, keys: seq<ApiKey>, hash: string -> string, userId: UserId,
                                 dto: CreateKeyDto, rawBytes: KeyDraw, now: Time, calendar: Calendar)
    requires KeysOk(keys, userCount)
    ensures KeysOk(CreateKeyStep(userCount, keys, hash, userId, dto, rawBytes, now, calendar).keys, userCount)
  {
    var o := CreateKeyStep(userCount, keys, hash, userId, dto, rawBytes, now, calendar);
    if o.result.Ok? {
      AppendKeepsKeys(keys, userCount, o.keys[|keys|]);
    }
  }

  /** Appending a record under the five-key bound, with a fresh hash and an
      existing owner, keeps the key table's integrity. */
  lemma AppendKeepsKeys(keys: seq<ApiKey>, userCount: nat, k: ApiKey)
    requires KeysOk(keys, userCount)
    requires k.id == |keys| && k.userId < userCount && !HasKeyHash(keys, k.key)
    requires !k.revoked ==> ActiveCount(keys, k.userId) < MaxActiveKeys
    ensures KeysOk(keys + [k], userCount)
  {
    forall u: UserId ensures ActiveCount(keys + [k], u) <= MaxActiveKeys {
      ActiveCountAppend(keys, k, u);
    }
  }

  /** Rollover fails NotFound for a key the user does not own, BadRequest
      for a key not yet expired, Conflict at the quota; nothing is stored. */
  lemma RolloverFailures(userCount: nat, keys: seq<ApiKey>, hash: string -> string, userId: UserId,
                         dto: RolloverKeyDto, rawBytes: KeyDraw, now: Time, calendar: Calendar)
    ensures var o := RolloverStep(userCount, keys, hash, userId, dto, rawBytes, now, calendar);
      var f := FindKeyOfUser(keys, dto.expiredKeyId, userId);
      && (o.result.Err? ==> o.keys == keys)
      && ((forall i :: 0 <= i < |keys| ==> !(keys[i].id == dto.expiredKeyId && keys[i].userId == userId))
            ==> o.result == Err(NotFound(KeyNotFound)))
      && (f.Some? && now <= keys[f.value].expiresAt ==> o.result == Err(BadRequest(NotYetExpired)))
      && ((f.Some? && now > keys[f.value].expiresAt && ActiveCount(keys, userId) >= MaxActiveKeys)
            ==> o.result == Err(Conflict(QuotaReachedOnRollover)))
  {
  }

  /** A successful rollover appends one live key carrying the old key's
      permissions and name plus " (rolled over)", leaves every stored record
      (the old one included) untouched, and returns the new raw secret. */
  lemma RolloverInherits(userCount: nat, keys: seq<ApiKey>, hash: string -> string, userId: UserId,
                         dto: RolloverKeyDto, rawBytes: KeyDraw, now: Time, calendar: Calendar)
    ensures var o := RolloverStep(userCount, keys, hash, userId, dto, rawBytes, now, calendar);
      o.result.Ok? ==>
        var oldKey := keys[FindKeyOfUser(keys, dto.expiredKeyId, userId).value];
        var record := o.keys[|keys|];
        && |o.keys| == |keys| + 1 && o.keys[..|keys|] == keys
        && oldKey.id == dto.expiredKeyId && oldKey.userId == userId && now > oldKey.expiresAt
        && record.permissions == oldKey.permissions && o.result.value.permissions == oldKey.permissions
        && record.name == oldKey.name + RolledOverSuffix
        && record.key == hash(o.result.value.apiKey) && o.result.value.apiKey == GenerateKey(rawBytes)
        && !record.revoked && record.userId == userId
        && record.expiresAt == o.result.value.expiresAt && now < record.expiresAt
  {
  }

  /** Rolling over an owned, expired key under the quota, with a known
      expiry code and an unused hash, succeeds. */
  lemma RolloverSucceeds(userCount: nat, keys: seq<ApiKey>, hash: string -> string, userId: UserId,
                         dto: RolloverKeyDto, rawBytes: KeyDraw, now: Time, calendar: Calendar, i: nat)
    requires KeysOk(keys, userCount)
    requires i < |keys| && keys[i].id == dto.expiredKeyId && keys[i].userId == userId && now > keys[i].expiresAt
    requires ActiveCount(keys, userId) < MaxActiveKeys
    requires ParseDuration(dto.expiry).Some?
    requires !HasKeyHash(keys, hash(GenerateKey(rawBytes)))
    ensures RolloverStep(userCount, keys, hash, userId, dto, rawBytes, now, calendar).result.Ok?
  {
    assert FindKeyOfUser(keys, dto.expiredKeyId, userId) == Some(i);
  }

  lemma RolloverPreservesIntegrity(userCount: nat, keys: seq<ApiKey>, hash: string -> string, userId: UserId,
                                   dto: RolloverKeyDto, rawBytes: KeyDraw, now: Time, calendar: Calendar)
    requires KeysOk(keys, userCount)
    ensures KeysOk(RolloverStep(userCount, keys, hash, userId, dto, rawBytes, now, calendar).keys, userCount)
  {
    var o := RolloverStep(userCount, keys, hash, userId, dto, rawBytes, now, calendar);
    if o.result.Ok? {
      AppendKeepsKeys(keys, userCount, o.keys[|keys|]);
    }
  }

  /** Rollover's expiry check passes exactly when validation treats the key
      as expired: "expired" is `now > expiresAt` for both. */
  lemma RolloverAgreesWithValidation(userCount: nat, keys: seq<ApiKey>, hash: string -> string, userId: UserId,
                                     dto: RolloverKeyDto, rawBytes: KeyDraw, now: Time, calendar: Calendar,
                                     rawKey: string, i: nat)
    requires KeysOk(keys, userCount)
    requires i < |keys| && keys[i].id == dto.expiredKeyId && keys[i].userId == userId
    requires Matches(hash, rawKey, keys[i]) && !keys[i].revoked
    ensures RolloverStep(userCount, keys, hash, userId, dto, rawBytes, now, calendar).result != Err(BadRequest(NotYetExpired))
        <==> KeyValidation(keys, hash, rawKey, now).None?
  {
    ValidationOfStoredKey(keys, userCount, hash, rawKey, now, i);
    assert FindKeyOfUser(keys, dto.expiredKeyId, userId) == Some(i);
  }

  /** Revoking needs the key to belong to the user; it flips only that
      record's flag, and revoking again changes nothing more. */
  lemma RevokeFlagsOnlyThatKey(keys: seq<ApiKey>, userCount: nat, keyId: KeyId, userId: UserId)
    requires KeysOk(keys, userCount)
    ensures var o := RevokeStep(keys, keyId, userId);
      && (o.result.Err? <==> forall i :: 0 <= i < |keys| ==> !(keys[i].id == keyId && keys[i].userId == userId))
      && (o.result.Err? ==> o.keys == keys && o.result == Err(NotFound(KeyNotFound)))
      && (o.result.Ok? ==>
            keyId < |keys| && keys[keyId].userId == userId && o.keys == keys[keyId := keys[keyId].(revoked := true)])
      && RevokeStep(o.keys, keyId, userId) == KeyOutcome(o.keys, o.result)
  {
    var o := RevokeStep(keys, keyId, userId);
    if o.result.Ok? {
      var i := FindKeyOfUser(keys, keyId, userId).value;
      assert keys[i].id == keyId;
      FirstIndexSameColumn(keys, o.keys, keyId, userId, i);
    }
  }

  lemma FirstIndexSameColumn(keys: seq<ApiKey>, keys': seq<ApiKey>, keyId: KeyId, userId: UserId, i: nat)
    requires |keys| == |keys'| && FindKeyOfUser(keys, keyId, userId) == Some(i)
    requires forall j :: 0 <= j < |keys| ==> keys'[j].id == keys[j].id && keys'[j].userId == keys[j].userId
    ensures FindKeyOfUser(keys', keyId, userId) == Some(i)
  {
    var p := (k: ApiKey) => k.id == keyId && k.userId == userId;
    assert forall j :: 0 <= j < |keys| ==> p(keys[j]) == p(keys'[j]);
    var f := FirstIndex(keys', p);
    assert p(keys'[i]);
  }

  /** A revoked key's secret no longer validates. */
  lemma RevokedKeyRejected(keys: seq<ApiKey>, userCount: nat, keyId: KeyId, userId: UserId,
                           hash: string -> string, rawKey: string, now: Time)
    requires KeysOk(keys, userCount)
    requires keyId < |keys| && keys[keyId].userId == userId && Matches(hash, rawKey, keys[keyId])
    ensures KeyValidation(RevokeStep(keys, keyId, userId).keys, hash, rawKey, now).None?
  {
    RevokeFlagsOnlyThatKey(keys, userCount, keyId, userId);
    RevokePreservesIntegrity(keys, userCount, keyId, userId);
    var keys' := RevokeStep(keys, keyId, userId).keys;
    ValidationOfStoredKey(keys', userCount, hash, rawKey, now, keyId);
  }

  lemma RevokePreservesIntegrity(keys: seq<ApiKey>, userCount: nat, keyId: KeyId, userId: UserId)
    requires KeysOk(keys, userCount)
    ensures KeysOk(RevokeStep(keys, keyId, userId).keys, userCount)
  {
    var o := RevokeStep(keys, keyId, userId);
    if o.result.Ok? {
      var i := FindKeyOfUser(keys, keyId, userId).value;
      forall u: UserId ensures ActiveCount(o.keys, u) <= MaxActiveKeys {
        ActiveCountUpdate(keys, i, keys[i].(revoked := true), u);
      }
    }
  }

  /** Revoking one of five live keys makes room: the next issue is no longer
      refused for the quota, and it succeeds when the request is otherwise
      valid. */
  lemma RevokeRestoresQuota(keys: seq<ApiKey>, userCount: nat, keyId: KeyId, userId: UserId,
                            hash: string -> string, dto: CreateKeyDto, rawBytes: KeyDraw, now: Time,
                            calendar: Calendar)
    requires KeysOk(keys, userCount)
    requires keyId < |keys| && keys[keyId].userId == userId && !keys[keyId].revoked
    ensures var keys' := RevokeStep(keys, keyId, userId).keys;
      && ActiveCount(keys', userId) == ActiveCount(keys, userId) - 1
      && CreateKeyStep(userCount, keys', hash, userId, dto, rawBytes, now, calendar).result != Err(Forbidden(QuotaReached))
      && ((&& (forall i :: 0 <= i < |dto.permissions| ==> ParsePermission(dto.permissions[i]).Some?)
           && ParseDuration(dto.expiry).Some?
           && !HasKeyHash(keys', hash(GenerateKey(rawBytes))))
          ==> CreateKeyStep(userCount, keys', hash, userId, dto, rawBytes, now, calendar).result.Ok?)
  {
    RevokeFlagsOnlyThatKey(keys, userCount, keyId, userId);
    ActiveCountUpdate(keys, keyId, keys[keyId].(revoked := true), userId);
    var keys' := RevokeStep(keys, keyId, userId).keys;
    if (&& (forall i :: 0 <= i < |dto.permissions| ==> ParsePermission(dto.permissions[i]).Some?)
        && ParseDuration(dto.expiry).Some?
        && !HasKeyHash(keys', hash(GenerateKey(rawBytes)))) {
      CreateSucceeds(userCount, keys', hash, userId, dto, rawBytes, now, calendar);
    }
  }

  // ---------------------------------------------------------------- service

  class KeysService {
    const db: Datastore
    const hash: string -> string

    constructor (db: Datastore, hash: string -> string)
      ensures this.db == db && this.hash == hash
    {
      this.db := db;
      this.hash := hash;
    }

    method CreateApiKey(userId: UserId, dto: CreateKeyDto, rawBytes: KeyDraw, now: Time, calendar: Calendar)
      returns (r: Result<ApiKey>)
      requires db.Valid()
      modifies db`apiKeys
      ensures db.Valid()
      ensures var o := CreateKeyStep(|db.users|, old(db.apiKeys), hash, userId, dto, rawBytes, now, calendar);
        db.apiKeys == o.keys && r == o.result
    {
      CreatePreservesIntegrity(|db.users|, db.apiKeys, hash, userId, dto, rawBytes, now, calendar);
      if ActiveCount(db.apiKeys, userId) >= MaxActiveKeys {
        return Err(Forbidden(QuotaReached));
      }
      var invalid := InvalidPermissions(dto.permissions);
      if invalid != [] {
        return Err(BadRequest(InvalidPermissionsPrefix + Join(invalid, ", ")));
      }
      var raw := GenerateKey(rawBytes);
      var hashed := hash(raw);
      var expiresAt := CalculateExpiry(dto.expiry, now, calendar);
      if expiresAt.Err? {
        return Err(expiresAt.error);
      }
      var record := ApiKey(|db.apiKeys|, hashed, dto.name, ParsePermissions(dto.permissions), expiresAt.value,
                           false, userId, now);
      var saved := SaveKey(|db.users|, db.apiKeys, record);
      if saved.Err? {
        return Err(saved.error);
      }
      db.apiKeys := db.apiKeys + [record];
      r := Ok(record.(key := raw));
    }

    method RolloverApiKey(userId: UserId, dto: RolloverKeyDto, rawBytes: KeyDraw, now: Time, calendar: Calendar)
      returns (r: Result<RolloverReply>)
      requires db.Valid()
      modifies db`apiKeys
      ensures db.Valid()
      ensures var o := RolloverStep(|db.users|, old(db.apiKeys), hash, userId, dto, rawBytes, now, calendar);
        db.apiKeys == o.keys && r == o.result
    {
      RolloverPreservesIntegrity(|db.users|, db.apiKeys, hash, userId, dto, rawBytes, now, calendar);
      var found := FindKeyOfUser(db.apiKeys, dto.expiredKeyId, userId);
      if found.None? {
        return Err(NotFound(KeyNotFound));
      }
      var oldKey := db.apiKeys[found.value];
      if now <= oldKey.expiresAt {
        return Err(BadRequest(NotYetExpired));
      }
      if ActiveCount(db.apiKeys, userId) >= MaxActiveKeys {
        return Err(Conflict(QuotaReachedOnRollover));
      }
      var raw := GenerateKey(rawBytes);
      var hashed := hash(raw);
      var expiresAt := CalculateExpiry(dto.expiry, now, calendar);
      if expiresAt.Err? {
        return Err(expiresAt.error);
      }
      var record := ApiKey(|db.apiKeys|, hashed, oldKey.name + RolledOverSuffix, oldKey.permissions,
                           expiresAt.value, false, userId, now);
      var saved := SaveKey(|db.users|, db.apiKeys, record);
      if saved.Err? {
        return Err(saved.error);
      }
      db.apiKeys := db.apiKeys + [record];
      r := Ok(RolloverReply(raw, expiresAt.value, oldKey.permissions));
    }

    method RevokeApiKey(keyId: KeyId, userId: UserId) returns (r: Result<string>)
      requires db.Valid()
      modifies db`apiKeys
      ensures db.Valid()
      ensures var o := RevokeStep(old(db.apiKeys), keyId, userId);
        db.apiKeys == o.keys && r == o.result
    {
      RevokePreservesIntegrity(db.apiKeys, |db.users|, keyId, userId);
      var found := FindKeyOfUser(db.apiKeys, keyId, userId);
      if found.None? {
        return Err(NotFound(KeyNotFound));
      }
      var apiKey := db.apiKeys[found.value];
      db.apiKeys := db.apiKeys[found.value := apiKey.(revoked := true)];
      r := Ok(Revoked);
    }

    /** The scan over every stored key, comparing the secret with each hash
        and stopping at the first match. */
    method ValidateApiKey(rawKey: string, now: Time) returns (r: Option<ValidatedKey>)
      ensures r == KeyValidation(db.apiKeys, hash, rawKey, now)
    {
      var allKeys := db.apiKeys;
      for i := 0 to |allKeys|
        invariant forall j :: 0 <= j < i ==> !Matches(hash, rawKey, allKeys[j])
      {
        var apiKey := allKeys[i];
        if hash(rawKey) == apiKey.key {
          assert FirstIndex(allKeys, (k: ApiKey) => Matches(hash, rawKey, k)) == Some(i);
          if apiKey.revoked {
            return None;
          }
          if now > apiKey.expiresAt {
            return None;
          }
          return Some(ValidatedKey(apiKey, apiKey.permissions));
        }
      }
      return None;
    }
  }
}
