/** The persisted entities of the wallet backend (users, wallets, ledger
    transactions, API keys), the enumerations they use, and the error values
    that the services raise. Money is integer kobo, time is milliseconds since
    the epoch, and a generated row id is the row's position in its table. */
module Entities {

  datatype Option<+T> = None | Some(value: T)

  type UserId = nat
  type WalletId = nat
  type KeyId = nat
  /** Minor currency units (1 naira = 100 kobo). */
  type Kobo = int
  /** Milliseconds since the epoch, as a JavaScript Date holds it. */
  type Time = int

  datatype TransactionType = Deposit | TransferIn | TransferOut
  datatype TransactionStatus = Pending | Success | Failed

  datatype Permission = DepositPermission | TransferPermission | ReadPermission

  /** The wire name of a permission, as API keys store it. */
  function PermissionName(p: Permission): (s: string)
    ensures s in {"deposit", "transfer", "read"}
  {
    match p
    case DepositPermission => "deposit"
    case TransferPermission => "transfer"
    case ReadPermission => "read"
  }

  /** The whitelist check of key creation: a name is accepted exactly when it
      is the wire name of some permission. */
  function ParsePermission(s: string): (r: Option<Permission>)
    ensures r.Some? <==> s in {"deposit", "transfer", "read"}
    ensures r.Some? ==> PermissionName(r.value) == s
  {
    if s == "deposit" then Some(DepositPermission)
    else if s == "transfer" then Some(TransferPermission)
    else if s == "read" then Some(ReadPermission)
    else None
  }

  lemma PermissionNameRoundTrip(p: Permission)
    ensures ParsePermission(PermissionName(p)) == Some(p)
  {
  }

  /** The permission set a session token carries: every permission. */
  const AllPermissions: seq<Permission> := [DepositPermission, TransferPermission, ReadPermission]

  datatype User = User(
    id: UserId,
    email: string,
    googleId: Option<string>,
    firstName: Option<string>,
    lastName: Option<string>,
    picture: Option<string>,
    isActive: bool,
    createdAt: Time)

  datatype Wallet = Wallet(
    id: WalletId,
    walletNumber: string,
    balance: Kobo,
    userId: UserId,
    createdAt: Time)

  datatype Transaction = Transaction(
    reference: string,
    txnType: TransactionType,
    amount: Kobo,
    status: TransactionStatus,
    recipientWalletNumber: Option<string>,
    senderWalletNumber: Option<string>,
    walletId: WalletId,
    createdAt: Time)

  /** `key` holds the one-way hash of the secret, never the secret itself. */
  datatype ApiKey = ApiKey(
    id: KeyId,
    key: string,
    name: string,
    permissions: seq<Permission>,
    expiresAt: Time,
    revoked: bool,
    userId: UserId,
    createdAt: Time)

  /** The failures the services report. `InsufficientBalance` and
      `PaymentInitFailed` are both 400 BadRequest responses that carry extra
      detail; the others each stand for one exception class, and `Internal`
      for a failed datastore write (a unique or foreign-key constraint). */
  datatype Error =
    | BadRequest(message: string)
    | InsufficientBalance(available: Kobo, required: Kobo)
    | PaymentInitFailed(message: string, details: Option<string>)
    | NotFound(message: string)
    | Unauthorized(message: string)
    | Forbidden(message: string)
    | Conflict(message: string)
    | Internal(message: string)

  datatype Result<+T> = Ok(value: T) | Err(error: Error)
}
