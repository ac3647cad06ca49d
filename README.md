# Wallet backend — a Dafny model

This project models the core of a NestJS wallet backend in Dafny. The backend keeps a
naira wallet per user, takes deposits through the Paystack payment processor, moves money
between wallets, and lets users issue API keys that act on their wallet with a chosen
set of permissions. The model covers six parts:

- the persisted entities: users, wallets, ledger transactions and API keys (`entities.dfy`);
- the datastore that holds them, with the integrity its columns enforce and the key quota
  the services maintain (`store.dfy`);
- the ledger engine, `WalletService` (`wallets.dfy`);
- the API-key lifecycle, `KeysService` (`keys.dfy`);
- the authentication and authorization guards (`guards.dfy`) and the route table that
  chains them (`routes.dfy`);
- first sign-in through Google, `AuthService.validateGoogleUser` (`onboarding.dfy`).

Two helper modules support them. `encoding.dfy` holds the hex and decimal encodings that
identifiers are built from, each with its decoder and a round-trip proof. `store.dfy`
holds the `Datastore` class.

Each state-changing operation is written twice:

- as a pure step function from the old tables to the new tables and the result, with
  its properties proved as lemmas. These cover the validation order, "nothing changes on
  failure", conservation of money, idempotence of settlement, the key quota and
  integrity preservation;
- as a method of a service class. The method performs the writes in place on the
  `Datastore` and is proved to produce exactly that step while keeping `Datastore.Valid()`.

`KeysService.ValidateApiKey` is the source's linear scan with early return, and it is
proved equal to the first-match specification. The guards are classes whose
`CanActivate` methods fill in the request's fields. Each method is proved against a pure
decision function, and the lemmas are stated about those functions.

Conventions:

- Money is integer kobo: 100 kobo is one naira.
- Time is integer milliseconds, as a JavaScript `Date` holds it.
- A generated row id is the row's position in its table.
- Foreign primitives are parameters: the Paystack call, HMAC-SHA512, bcrypt, JWT
  verification, random bytes and the random wallet-number draw.
- bcrypt is a function `hash`. A stored key matches a presented secret exactly when the
  stored value is `hash(secret)`.
- The datastore's integrity (`Datastore.Valid`) is row ids, unique columns, owners, and
  the five-live-key quota. No column enforces the quota; the key operations keep it by
  counting before they write. The balance column has no sign constraint, so "no balance
  below zero" (`Store.Solvent`) is a separate property. It is proved of every operation,
  and of settlement only for a non-negative amount.

Behaviours of the code that the model keeps as written:

- Two JWT secrets are configured. Session tokens are signed, and the key routes'
  `JwtAuthGuard` verifies, under `JWT_SECRET_KEY` (auth.module.ts:14, keys.module.ts:13).
  The wallet routes' `FlexibleAuthGuard` verifies under `JWT_SECRET` (wallet.module.ts:17).
  Both fall back to the same default. `Routes.Admit` takes the two verifiers separately.
  A session token opens the wallet routes only when the two verifiers agree on it
  (`Routes.SessionOpensWalletRoutes`, `Routes.SessionTokenRefusedBySecretMismatch`).

- Issuing a key over the quota is a `ForbiddenException` (403). Only rollover over the
  quota is a `ConflictException` (409).
- Onboarding saves the user and the wallet in two separate writes, not one atomic unit.
  A wallet-number clash leaves a user without a wallet. A retry then finds the user
  and never creates the wallet.
- The webhook HMAC is computed over the re-serialized payload and compared with `!==`.
- `transfer` runs five checks before any write, not four: the amount, the sender, the
  balance, the recipient, and self-transfer.
- Settlement credits the payload's amount, not the amount stored on the pending record.

## Model

| member | source | states |
|---|---|---|
| `Entities.ParsePermission` | src/keys/keys.service.ts:53-54 | a name is accepted exactly when it is one of deposit, transfer, read, and then it reads back to that name |
| `Entities.PermissionNameRoundTrip` | src/entities/api-key.entity.ts:20-21 | every permission's stored name parses back to the same permission |
| `Encoding.Hex` | src/wallet/wallet.service.ts:32 | the hex of n bytes is 2n lower-case hex digits |
| `Encoding.HexRoundTrip` | src/wallet/wallet.service.ts:32 | decoding the hex of any byte string gives back those bytes |
| `Encoding.HexInjective` | src/keys/keys.service.ts:41 | distinct byte strings have distinct hex forms |
| `Encoding.Decimal` | src/auth/auth.service.ts:22 | the decimal form of a number is a non-empty string of digits |
| `Encoding.DecimalRoundTrip` | src/auth/auth.service.ts:22 | reading back the decimal form of n gives n |
| `Encoding.DecimalLength` | src/auth/auth.service.ts:21-22 | a number between 10^(k-1) and 10^k prints as exactly k digits |
| `Encoding.DecimalInjective` | src/auth/auth.service.ts:22 | distinct numbers print differently |
| `Store.FirstIndex` | src/wallet/wallet.service.ts:42-45 | `findOne`: the position found matches, and no earlier row matches; nothing is found only when no row matches |
| `Store.ActiveCount` | src/keys/keys.service.ts:45-47 | the count is the number of table rows that belong to the user and are not revoked |
| `Store.TotalUpdate` | src/wallet/wallet.service.ts:206-211 | overwriting one wallet changes the sum of balances by exactly that wallet's change |
| `Store.ActiveCountUpdate` | src/keys/keys.service.ts:135-136 | overwriting one key changes a user's active count by the difference of the two records' standing |
| `Store.NewestFirst` | src/wallet/wallet.service.ts:248-261 | a listing holds the view of every selected row and of nothing else, and is no longer than the table |
| `Store.NewestFirstAppend` | src/keys/keys.service.ts:141-148 | an empty table lists nothing; a newly appended row, when selected, comes first, ahead of the unchanged listing of the older rows: `ORDER BY createdAt DESC`, one entry per row |
| `Wallets.GenerateReference` | src/wallet/wallet.service.ts:31-33 | a reference is 36 characters: `TXN_` followed by the hex of the 16 random bytes |
| `Wallets.ReferenceInjective` | src/wallet/wallet.service.ts:31-33 | distinct random draws give distinct references |
| `Wallets.DepositStep` | src/wallet/wallet.service.ts:34-90 | the ledger only grows, by at most one PENDING deposit of the amount under the fresh reference, which a success returns; the lemmas below fix each branch |
| `Wallets.DepositRejectsSmallAmount` | src/wallet/wallet.service.ts:35-40 | an amount not above 0, or below ₦100, is a BadRequest with its message, and no transaction is recorded |
| `Wallets.DepositNeedsWallet` | src/wallet/wallet.service.ts:42-48 | a user with no wallet gets NotFound "Wallet not found", and nothing is recorded |
| `Wallets.DepositRecordsPending` | src/wallet/wallet.service.ts:50-89 | exactly one PENDING deposit with the fresh reference is recorded on the user's wallet, and it stays whether the processor accepts or declines; the processor's link is returned, or its message (with the fallback) and details |
| `Wallets.DepositPreservesIntegrity` | src/wallet/wallet.service.ts:50-59 | the transaction table keeps unique references and valid wallet ids |
| `Wallets.WebhookStep` | src/wallet/wallet.service.ts:92-142 | no row is added or removed; a refused signature is the only BadRequest, and every error changes nothing; the lemmas below fix each branch |
| `Wallets.WebhookRejectsBadSignature` | src/wallet/wallet.service.ts:97-104 | a signature other than the payload's HMAC gives BadRequest "Invalid signature" and changes nothing |
| `Wallets.WebhookAbsorbs` | src/wallet/wallet.service.ts:106-141 | a signed event that is no successful charge, or names an unknown or already settled reference, is acknowledged with true and changes nothing |
| `Wallets.WebhookSettles` | src/wallet/wallet.service.ts:108-138 | settling a known unsettled record marks only it SUCCESS and credits only its wallet by the payload amount; the total of balances rises by that amount |
| `Wallets.WebhookIdempotent` | src/wallet/wallet.service.ts:123-127 | delivering the same payload again changes nothing and gets the same answer, so a charge is credited at most once |
| `Wallets.WebhookPreservesIntegrity` | src/wallet/wallet.service.ts:129-138 | settlement always keeps wallet and transaction integrity; it keeps every balance non-negative when the payload amount is non-negative |
| `Wallets.WebhookNegativeCharge` | src/wallet/wallet.service.ts:108-138 | a signed charge with a negative amount on a pending deposit is settled and lowers the wallet's balance, below zero when it exceeds the balance |
| `Wallets.TransferStep` | src/wallet/wallet.service.ts:172-240 | no wallet is added; an error changes nothing; success is Completed with exactly two records appended; the lemmas below fix balances and records |
| `Wallets.TransferCheck` | src/wallet/wallet.service.ts:173-201 | when every check passes, the sender is the caller's wallet, the recipient is the wallet with that number and a different wallet, and the sender holds at least the positive amount; both fresh references are unused |
| `Wallets.MoveConserves` | src/wallet/wallet.service.ts:206-211 | debiting one wallet and crediting a different one by the same amount keeps the sum of all balances |
| `Wallets.TransferKeepsStore` | src/wallet/wallet.service.ts:204-234 | a transfer keeps the integrity of the whole datastore, and keeps a solvent ledger solvent |
| `Wallets.TransferValidationOrder` | src/wallet/wallet.service.ts:173-201 | the five checks run in the source's order, and the first that fails decides the error |
| `Wallets.TransferFailureChangesNothing` | src/wallet/wallet.service.ts:172-201 | a failed transfer leaves all wallets and transactions as they were |
| `Wallets.TransferConserves` | src/wallet/wallet.service.ts:204-211 | the total of all balances is the same after any transfer |
| `Wallets.TransferSucceeds` | src/wallet/wallet.service.ts:173-234 | when the caller has a wallet, the number names a different wallet, the amount is positive and covered, and both fresh references are unused, the transfer completes: the funds move and the two records are appended |
| `Wallets.TransferMovesFunds` | src/wallet/wallet.service.ts:184-211 | a successful transfer debits the sender and credits a different recipient by the amount, leaves the sender non-negative, and touches no other wallet |
| `Wallets.TransferRecords` | src/wallet/wallet.service.ts:213-233 | exactly two SUCCESS records are appended with distinct fresh references: TRANSFER_OUT on the sender naming the recipient's number, then TRANSFER_IN on the recipient naming the sender's |
| `Wallets.TransferPreservesIntegrity` | src/wallet/wallet.service.ts:204-234 | a transfer keeps wallet and transaction integrity, and keeps every balance non-negative on a solvent ledger |
| `Wallets.MoveKeepsWallets` | src/wallet/wallet.service.ts:206-211 | moving funds between two wallets keeps the wallet table's integrity, and keeps a solvent ledger solvent when the sender holds the amount |
| `Wallets.TransfersConserve` | src/wallet/wallet.service.ts:172-240 | any sequence of transfers, successful or failed, keeps the total and keeps balances non-negative |
| `Wallets.GetDepositStatus` | src/wallet/wallet.service.ts:144-158 | found exactly when a DEPOSIT record with that reference exists, and then gives its status and amount; otherwise NotFound |
| `Wallets.GetBalance` | src/wallet/wallet.service.ts:160-170 | found exactly when the user has a wallet, and then gives that wallet's balance; otherwise NotFound |
| `Wallets.BalanceNonNegative` | src/wallet/wallet.service.ts:167-169 | on a solvent ledger a reported balance is never negative |
| `Wallets.History` | src/wallet/wallet.service.ts:248-261 | the history holds the view of every record of the wallet and nothing else |
| `Wallets.HistoryNewestFirst` | src/wallet/wallet.service.ts:248-251 | an empty table gives an empty history; a newly added record comes first in its wallet's history, ahead of the older entries, each listed once |
| `Wallets.GetTransactions` | src/wallet/wallet.service.ts:242-262 | found exactly when the user has a wallet, and then gives that wallet's history; otherwise NotFound |
| `Wallets.WalletService.InitializeDeposit` | src/wallet/wallet.service.ts:34-90 | the in-place deposit writes exactly the deposit step's table and result, and keeps the datastore valid |
| `Wallets.WalletService.HandleWebhook` | src/wallet/wallet.service.ts:92-142 | the in-place settlement writes exactly the webhook step's tables and result, keeps the datastore valid, and keeps a solvent ledger solvent for a non-negative amount |
| `Wallets.WalletService.Transfer` | src/wallet/wallet.service.ts:172-240 | the in-place writes produce exactly the transfer step's tables and result, keep the datastore valid, and keep a solvent ledger solvent |
| `Keys.ParseDuration` | src/keys/keys.service.ts:21-36 | exactly the four codes 1H, 1D, 1M, 1Y are read, each back to its own code |
| `Keys.Expiry` | src/keys/keys.service.ts:22-33 | an expiry is always later than now: one hour later for 1H, one day later for 1D |
| `Keys.CalculateExpiry` | src/keys/keys.service.ts:19-38 | succeeds exactly for the four codes, always strictly after now; anything else is BadRequest "Invalid expiry" |
| `Keys.GenerateKey` | src/keys/keys.service.ts:40-42 | the secret is "sk_" followed by the hex of the 32-byte draw, 67 characters |
| `Keys.KeyInjective` | src/keys/keys.service.ts:40-42 | distinct 32-byte draws give distinct secrets |
| `Keys.InvalidPermissions` | src/keys/keys.service.ts:53-54 | lists exactly the requested names outside the whitelist, and is empty only when every name is whitelisted |
| `Keys.InvalidPermissionsAppend` | src/keys/keys.service.ts:53-54 | the filter distributes over concatenation, so the invalid names keep the request's order and repeats |
| `Keys.ParsePermissions` | src/keys/keys.service.ts:65 | the stored permissions are the requested names, one for one |
| `Keys.SaveKey` | src/keys/keys.service.ts:70 | an insert succeeds exactly when the hash is unused and the owner exists, and then appends the record |
| `Keys.ListApiKeys` | src/keys/keys.service.ts:141-149 | lists the view of every key of the user and of no other user's key |
| `Keys.ListApiKeysNewestFirst` | src/keys/keys.service.ts:141-148 | no keys list as nothing; a newly stored key of the user is listed first, ahead of the older keys, each listed once |
| `Keys.KeyValidation` | src/keys/keys.service.ts:151-176 | a returned key is a stored record whose hash matches the secret, live and not expired, with its own permissions; `KeyValidationCharacterized` gives the converse |
| `Keys.KeyValidationCharacterized` | src/keys/keys.service.ts:151-176 | validation succeeds exactly when the first record whose hash matches is live (not revoked, and now is not past its expiry), and then returns that record and its permissions |
| `Keys.ValidationOfStoredKey` | src/keys/keys.service.ts:156-173 | with unique hashes, a secret matching a stored record is decided by that record alone |
| `Keys.CreateKeyStep` | src/keys/keys.service.ts:44-81 | an error stores nothing; a success is under the quota and appends exactly the returned record with its secret replaced by the secret's hash |
| `Keys.CreateRespectsQuota` | src/keys/keys.service.ts:45-51 | with five live keys, issuing fails Forbidden and stores nothing |
| `Keys.CreateSucceeds` | src/keys/keys.service.ts:44-81 | below the quota, with whitelisted permissions, a known expiry code, an unused hash and an existing owner, issuing succeeds |
| `Keys.CreateValidatesRequest` | src/keys/keys.service.ts:53-68 | under the quota, a permission outside the whitelist or an unknown expiry code gives BadRequest and stores nothing; permissions are checked first, so any invalid name gives "Invalid permissions: " and the joined invalid names, and only a request whose names all pass gets "Invalid expiry" |
| `Keys.CreateStoresHash` | src/keys/keys.service.ts:59-80 | a successful issue appends one live record: the hash of an `sk_` secret of 64 hex digits, the requested name and permissions, a later expiry; it returns that record with the raw secret |
| `Keys.CreatedKeyValidates` | src/keys/keys.service.ts:44-81 | the secret returned by an issue validates, with its permissions, until its expiry |
| `Keys.CreatePreservesIntegrity` | src/keys/keys.service.ts:45-70 | issuing keeps unique hashes and at most five live keys per user |
| `Keys.RolloverStep` | src/keys/keys.service.ts:83-124 | an error stores nothing; a success keeps every old row and appends one live record of the caller holding the hash of the returned secret and its expiry |
| `Keys.RolloverFailures` | src/keys/keys.service.ts:85-103 | a key the user does not own is NotFound; one not yet expired is BadRequest; at the quota the answer is Conflict; nothing is stored in any of these cases |
| `Keys.RolloverInherits` | src/keys/keys.service.ts:105-123 | a successful rollover appends one live key with the old permissions and the name plus " (rolled over)"; the old record and every other record are unchanged |
| `Keys.RolloverSucceeds` | src/keys/keys.service.ts:83-124 | rolling over an owned, expired key below the quota, with a known expiry code and an unused hash, succeeds |
| `Keys.RolloverPreservesIntegrity` | src/keys/keys.service.ts:97-117 | rollover keeps unique hashes and at most five live keys per user |
| `Keys.RolloverAgreesWithValidation` | src/keys/keys.service.ts:93-95 | a live stored key passes rollover's expiry check exactly when validation refuses it as expired |
| `Keys.RevokeStep` | src/keys/keys.service.ts:126-139 | no row is added; an error changes nothing; a changed row is the caller's key with that id, with only its revoked flag set |
| `Keys.RevokeFlagsOnlyThatKey` | src/keys/keys.service.ts:126-139 | fails NotFound exactly when no key has that id and owner; otherwise sets only that key's revoked flag; revoking again changes nothing |
| `Keys.RevokedKeyRejected` | src/keys/keys.service.ts:158-162 | after revocation the key's secret no longer validates |
| `Keys.RevokePreservesIntegrity` | src/keys/keys.service.ts:135-136 | revoking keeps the key table's integrity |
| `Keys.RevokeRestoresQuota` | src/keys/keys.service.ts:45-51 | revoking a live key lowers the user's active count by one; the next issue is not refused for the quota, and succeeds when the request is otherwise valid |
| `Keys.KeysService.CreateApiKey` | src/keys/keys.service.ts:44-81 | the in-place issue writes exactly the create step's table and result, and keeps the datastore valid |
| `Keys.KeysService.RolloverApiKey` | src/keys/keys.service.ts:83-124 | the in-place rollover writes exactly the rollover step's table and result, and keeps the datastore valid |
| `Keys.KeysService.RevokeApiKey` | src/keys/keys.service.ts:126-139 | the in-place revocation writes exactly the revoke step's table and result, and keeps the datastore valid |
| `Keys.KeysService.ValidateApiKey` | src/keys/keys.service.ts:151-176 | the scan with early return gives exactly the first-match validation result |
| `Guards.From7` | src/guards/jwt-auth.guard.ts:16 | the token is the header after its first seven characters, or empty for a shorter header |
| `Guards.FlexibleAuth` | src/guards/flexible-auth.guard.ts:12-41 | fails only with "No valid authentication provided"; a verifying bearer token is always the jwt scheme; the api-key scheme only comes from a validating key |
| `Guards.ApiKeyAuth` | src/guards/api-key.guard.ts:8-29 | admits exactly when a non-empty key header validates, and fails only with Unauthorized |
| `Guards.JwtAuth` | src/guards/jwt-auth.guard.ts:8-25 | admits exactly when a non-empty header starts with "Bearer" and the token from index 7 verifies, and fails only with Unauthorized |
| `Guards.PermissionCheck` | src/guards/permission.guard.ts:8-38 | passes exactly when nothing is declared, the caller is jwt, or every declared permission is held; never answers false; fails only with Forbidden |
| `Guards.FlexibleJwtFirst` | src/guards/flexible-auth.guard.ts:17-24 | a "Bearer " token that verifies admits the request as its subject, with every permission and scheme jwt, whatever API key comes with it |
| `Guards.FlexibleFallsThrough` | src/guards/flexible-auth.guard.ts:17-29 | a missing, malformed or failing token gives the same outcome as a request without the header |
| `Guards.FlexibleApiKey` | src/guards/flexible-auth.guard.ts:29-37 | otherwise a validating key admits the request as the key's owner, with the key's permissions and scheme api-key |
| `Guards.FlexibleFailsOnlyUnauthorized` | src/guards/flexible-auth.guard.ts:17-40 | the guard fails exactly when neither scheme succeeds, and then only with Unauthorized "No valid authentication provided" |
| `Guards.ApiKeyGuardAgreesWithFlexible` | src/guards/api-key.guard.ts:18-28 | without an Authorization header, it admits exactly what the flexible guard admits, with the same grant |
| `Guards.ApiKeyGuardOnlyUnauthorized` | src/guards/api-key.guard.ts:12-22 | a missing header or a key that does not validate is refused with its own Unauthorized message, and never with Forbidden |
| `Guards.ApiKeyGuardRefusesDeadKey` | src/guards/api-key.guard.ts:15-22 | a stored key that is revoked or expired is refused as Unauthorized |
| `Guards.ApiKeyGuardDependsOnValidation` | src/guards/api-key.guard.ts:12-22 | the outcome depends only on the header's presence and the validation result |
| `Guards.JwtGuardReadsFromSeven` | src/guards/jwt-auth.guard.ts:12-21 | any header starting "Bearer", with no space needed, has its token read from index 7, and a verifying token gives its subject |
| `Guards.JwtGuardFailures` | src/guards/jwt-auth.guard.ts:12-24 | a missing header or one without the prefix is "No token provided"; a failing token is "Invalid or expired token"; both are Unauthorized |
| `Guards.JwtGuardAgreesWithFlexible` | src/guards/jwt-auth.guard.ts:16-21 | on a header both guards read as a bearer token, with verifiers that agree on that token, they identify the same caller |
| `Guards.PermissionFreePasses` | src/guards/permission.guard.ts:14-23 | a route without declared permissions, or a jwt caller, always passes |
| `Guards.PermissionSuperset` | src/guards/permission.guard.ts:26-35 | an API-key caller passes exactly when every declared permission is held (none held if nothing was recorded); otherwise Forbidden |
| `Guards.PermissionMonotone` | src/guards/permission.guard.ts:27-29 | holding more permissions never turns a pass into Forbidden |
| `Guards.FlexibleAuthGuard.CanActivate` | src/guards/flexible-auth.guard.ts:12-41 | the request's user, key, permissions and scheme are set exactly as the flexible decision grants, and are left unchanged on failure |
| `Guards.ApiKeyGuard.CanActivate` | src/guards/api-key.guard.ts:8-29 | the request's user, key, permissions and scheme are set exactly as the API-key decision grants, and are left unchanged on failure |
| `Guards.JwtAuthGuard.CanActivate` | src/guards/jwt-auth.guard.ts:8-25 | only the request's user is set, to the token's subject, and it is left unchanged on failure |
| `Routes.ChainOf` | src/wallet/wallet.controller.ts:15-158 | only the webhook is open, the key routes run the session guard alone, and the wallet routes run the flexible guard |
| `Routes.RequiredPermissions` | src/wallet/wallet.controller.ts:15-158 | exactly the permission-guarded endpoints declare one permission each, read for balance and history |
| `Routes.Admit` | src/wallet/wallet.controller.ts:14-158 | the webhook always passes; a key route passes exactly when the session guard does; a wallet route passes only through the flexible guard under the wallet secret; failures are Unauthorized, or Forbidden after a permission check |
| `Routes.WebhookIsOpen` | src/wallet/wallet.controller.ts:45-46 | the processor's callback is admitted with no credentials |
| `Routes.SessionOpensWalletRoutes` | src/wallet/wallet.controller.ts:14-158 | a session token that the wallet routes' verifier accepts as the session verifier does opens every wallet endpoint as its subject, with every permission |
| `Routes.SessionTokenRefusedBySecretMismatch` | src/wallet/wallet.module.ts:17 | a session token that the wallet secret refuses, and that the session secret accepts, opens no wallet endpoint without a key |
| `Routes.RoutesReadTheirOwnSecret` | src/keys/keys.module.ts:13 | wallet routes do not depend on the session verifier, and key routes do not depend on the wallet verifier |
| `Routes.KeyOpensWhatItHolds` | src/wallet/wallet.controller.ts:95-97 | through an API key, an endpoint with declared permissions passes exactly when the key holds them all and otherwise gives Forbidden; deposit status needs only a valid key |
| `Routes.ReadOnlyKeyCannotMoveMoney` | src/wallet/wallet.controller.ts:118-120 | a key holding only read opens balance and history, and is Forbidden on transfer and deposit |
| `Routes.KeyRoutesNeedSession` | src/keys/keys.controller.ts:10-11 | key management admits only a "Bearer" token that verifies under the session secret; an API key alone is Unauthorized |
| `Routes.NoCredentialsNoEntry` | src/wallet/wallet.controller.ts:66-67 | with no credentials, every endpoint except the webhook is Unauthorized |
| `Onboarding.GenerateWalletNumber` | src/auth/auth.service.ts:19-23 | a wallet number is 13 digits: "456" followed by the ten-digit draw, which reads back from it |
| `Onboarding.WalletNumberInjective` | src/auth/auth.service.ts:19-23 | distinct draws give distinct wallet numbers |
| `Onboarding.OnboardStep` | src/auth/auth.service.ts:25-48 | users and wallets only grow, each by at most one; a new wallet comes with its new owner; a returned user has the profile's email |
| `Onboarding.OnboardKnownEmail` | src/auth/auth.service.ts:28-47 | a known email returns the stored user and creates no user and no wallet |
| `Onboarding.OnboardNewEmail` | src/auth/auth.service.ts:30-45 | a new email creates exactly one active user from the profile and, unless the number is taken, one wallet of balance 0 owned by that user, numbered from the draw; on a clash the user stays and no wallet is created |
| `Onboarding.OnboardTwice` | src/auth/auth.service.ts:25-48 | signing in again with the same email creates nothing more and returns the same user |
| `Onboarding.OnboardPreservesUsers` | src/auth/auth.service.ts:28-37 | emails stay unique, and a user with the profile's email exists afterwards |
| `Onboarding.OnboardPreservesWallets` | src/auth/auth.service.ts:39-45 | wallet integrity holds afterwards, the total of balances is unchanged, and a solvent ledger stays solvent |
| `Onboarding.OnboardKeepsStore` | src/auth/auth.service.ts:28-45 | onboarding keeps the integrity of the whole datastore |
| `Onboarding.AuthService.ValidateGoogleUser` | src/auth/auth.service.ts:25-48 | the two in-place inserts produce exactly the onboarding step's tables and result, and keep the datastore valid |

## Left out

- The Paystack HTTP call is a parameter: a function from the request body to a reply. A
  timeout, the console logging and the shape of the raw error response are not modelled.
- HMAC-SHA512, bcrypt, JWT signing and verification, and `crypto.randomBytes` are
  parameters or inputs. bcrypt's salting is not modelled: `hash(secret)` stands for
  "`bcrypt.compare(secret, stored)` is true".
- Wallets.WebhookPreservesIntegrity: keeps balances non-negative only for a non-negative
  payload amount. The source credits the signed amount without checking its sign, and
  `Wallets.WebhookNegativeCharge` shows the effect of a negative one.
- Decimal and floating-point money is not modelled. `Number(...)`, `amount * 100` and
  `data.amount / 100` become integer kobo, so the deposit floor of ₦100 is 10000 kobo.
  The webhook credits `data.amount` kobo. Amounts the source could hold as fractions of
  a kobo are not representable. Balances and amounts are `decimal(15,2)` columns
  (wallet.entity.ts:19, transaction.entity.ts:35), so they stay below 10^13 naira. A
  credit past that bound fails the source's write and rolls back its unit of work. The
  model has no such bound and credits any integer.
- A missing, non-numeric or `NaN` amount is not modelled. Amounts are integers. For a
  deposit, zero takes the same "Amount must be greater than 0" path as the `!amount`
  test. A transfer has no such test, and its body is an inline type that the global
  validation pipe does not check, so a JSON string amount such as "50" passes all five
  checks. The debit converts it to a number (wallet.service.ts:206), but the credit
  (wallet.service.ts:209) appends it to the recipient's balance as text. The source
  therefore conserves money only for numeric amounts; this reading comes from the code
  alone and was not executed. `Wallets.TransferConserves` is about numeric amounts only.
- `Wallets.TransferStep`: the insufficient-balance error carries the available and
  required amounts as numbers, not the formatted "₦…" message text.
- Concurrency and database isolation are not modelled. Each unit of work is one step.
  The stale sender balance read before the unit of work is a race and is not modelled.
- `Keys.CalculateExpiry`: month and year arithmetic is a positive span chosen by the
  calendar. 1H and 1D are fixed offsets with no daylight-saving shift.
- `Keys.KeysService.RolloverApiKey`: the source calls `calculateExpiry` twice, stores the
  second result and returns the first. With one `now` per request both are the same value.
- Ordering by `createdAt DESC` is modelled as reverse insertion order. Two records with
  equal timestamps are not reordered.
- The transaction's own generated id is not modelled, because nothing reads it. User and
  key ids are row positions, not UUIDs.
- The global validation pipe, which checks the key DTOs before the service runs, is not
  modelled. The model keeps the service's own permission and expiry checks.
- Repeated `x-api-key` headers are not modelled. The platform joins them into one string
  separated by ", ", which then fails validation as one unknown key. Headers are single
  optional strings.
- Only the API-key path of the flexible guard records the key on the request, as in the
  source, and the key's owner is looked up by its owner column. The separate relation
  load is not modelled.
- `AuthService.generateJwt`, the Google OAuth strategy, controllers beyond their guard
  and permission declarations, modules other than their two JWT secret settings,
  `main.ts` and Swagger decorators are not part of this model.
- `getDepositStatus` performs no ownership check in the source. The model keeps that:
  any admitted caller may poll any deposit reference.
