/** The relational datastore behind the services: the four tables, the
    integrity its columns enforce, the five-live-key quota that no column
    enforces and the key operations maintain by counting, and the queries
    the services run against it. A `findOne` over a column is the first row that matches; under the
    integrity predicates at most one row does. */
module Store {
  import opened Entities

  /** At most this many non-revoked API keys per user. */
  const MaxActiveKeys: nat := 5

  const UniqueViolation: string := "duplicate key value violates unique constraint"
  const ForeignKeyViolation: string := "insert or update violates foreign key constraint"

  /** The first position whose element satisfies `p`, if any. */
  function FirstIndex<T>(s: seq<T>, p: T -> bool): (r: Option<nat>)
    ensures r.Some? ==> r.value < |s| && p(s[r.value])
    ensures r.Some? ==> forall j :: 0 <= j < r.value ==> !p(s[j])
    ensures r.None? ==> forall j :: 0 <= j < |s| ==> !p(s[j])
  {
    if s == [] then None
    else if p(s[0]) then Some(0)
    else match FirstIndex(s[1..], p)
      case None => None
      case Some(k) => Some(k + 1)
  }

  function FindUserByEmail(users: seq<User>, email: string): (r: Option<nat>)
  {
    FirstIndex(users, (u: User) => u.email == email)
  }

  /** A row that matches, with no match before it, is the one found. */
  lemma FirstIndexAt<T>(s: seq<T>, p: T -> bool, i: nat)
    requires i < |s| && p(s[i]) && forall j :: 0 <= j < i ==> !p(s[j])
    ensures FirstIndex(s, p) == Some(i)
  {
  }

  function FindWalletByUser(wallets: seq<Wallet>, userId: UserId): (r: Option<nat>)
  {
    FirstIndex(wallets, (w: Wallet) => w.userId == userId)
  }

  function FindWalletByNumber(wallets: seq<Wallet>, walletNumber: string): (r: Option<nat>)
  {
    FirstIndex(wallets, (w: Wallet) => w.walletNumber == walletNumber)
  }

  function FindTxnByReference(txns: seq<Transaction>, reference: string): (r: Option<nat>)
  {
    FirstIndex(txns, (t: Transaction) => t.reference == reference)
  }

  function FindKeyOfUser(keys: seq<ApiKey>, keyId: KeyId, userId: UserId): (r: Option<nat>)
  {
    FirstIndex(keys, (k: ApiKey) => k.id == keyId && k.userId == userId)
  }

  predicate HasReference(txns: seq<Transaction>, reference: string) {
    exists i :: 0 <= i < |txns| && txns[i].reference == reference
  }

  predicate HasWalletNumber(wallets: seq<Wallet>, walletNumber: string) {
    exists i :: 0 <= i < |wallets| && wallets[i].walletNumber == walletNumber
  }

  predicate HasKeyHash(keys: seq<ApiKey>, hash: string) {
    exists i :: 0 <= i < |keys| && keys[i].key == hash
  }

  predicate Active(k: ApiKey, userId: UserId) {
    k.userId == userId && !k.revoked
  }

  /** `count({ userId, revoked: false })` over the key table: the number of
      rows that are the user's and not revoked. */
  function ActiveCount(keys: seq<ApiKey>, userId: UserId): (n: nat)
    ensures n == |set i | 0 <= i < |keys| && Active(keys[i], userId)|
  {
    if keys == [] then
      assert (set i | 0 <= i < |keys| && Active(keys[i], userId)) == {};
      0
    else
      var m := |keys| - 1;
      var before := set i | 0 <= i < m && Active(keys[..m][i], userId);
      var all := set i | 0 <= i < |keys| && Active(keys[i], userId);
      assert all == before + (if Active(keys[m], userId) then {m} else {});
      ActiveCount(keys[..m], userId) + (if Active(keys[m], userId) then 1 else 0)
  }

  /** The rows `keep` selects, each as `view` shows it, newest first: on a
      table appended in time order this is `ORDER BY createdAt DESC`. */
  function NewestFirst<T, V>(rows: seq<T>, keep: T -> bool, view: T -> V): (r: seq<V>)
    ensures forall v :: v in r ==> exists i :: 0 <= i < |rows| && keep(rows[i]) && v == view(rows[i])
    ensures forall i :: 0 <= i < |rows| && keep(rows[i]) ==> view(rows[i]) in r
    ensures |r| <= |rows|
  {
    if rows == [] then []
    else
      var n := |rows| - 1;
      var rest := NewestFirst(rows[..n], keep, view);
      assert forall i :: 0 <= i < n ==> rows[..n][i] == rows[i];
      (if keep(rows[n]) then [view(rows[n])] else []) + rest
  }

  /** A newly appended row comes first when selected, and the listing of the
      older rows follows unchanged: one entry per selected row, in reverse
      insertion order. */
  lemma NewestFirstAppend<T, V>(rows: seq<T>, x: T, keep: T -> bool, view: T -> V)
    ensures NewestFirst([], keep, view) == []
    ensures NewestFirst(rows + [x], keep, view)
         == (if keep(x) then [view(x)] else []) + NewestFirst(rows, keep, view)
  {
    assert (rows + [x])[..|rows|] == rows;
  }

  /** The sum of all wallet balances. */
  function Total(wallets: seq<Wallet>): Kobo {
    if wallets == [] then 0 else Total(wallets[..|wallets| - 1]) + wallets[|wallets| - 1].balance
  }

  lemma {:induction false} TotalUpdate(wallets: seq<Wallet>, i: nat, w: Wallet)
    requires i < |wallets|
    ensures Total(wallets[i := w]) == Total(wallets) - wallets[i].balance + w.balance
  {
    var n := |wallets| - 1;
    if i < n {
      assert wallets[i := w][..n] == wallets[..n][i := w];
      TotalUpdate(wallets[..n], i, w);
    } else {
      assert wallets[i := w][..n] == wallets[..n];
    }
  }

  lemma TotalAppend(wallets: seq<Wallet>, w: Wallet)
    ensures Total(wallets + [w]) == Total(wallets) + w.balance
  {
    assert (wallets + [w])[..|wallets|] == wallets;
  }

  lemma ActiveCountAppend(keys: seq<ApiKey>, k: ApiKey, userId: UserId)
    ensures ActiveCount(keys + [k], userId) == ActiveCount(keys, userId) + (if Active(k, userId) then 1 else 0)
  {
    assert (keys + [k])[..|keys|] == keys;
  }

  /** Overwriting one key changes the count by the difference of the two
      records' standing. */
  lemma {:induction false} ActiveCountUpdate(keys: seq<ApiKey>, i: nat, k: ApiKey, userId: UserId)
    requires i < |keys|
    ensures ActiveCount(keys[i := k], userId)
         == ActiveCount(keys, userId) - (if Active(keys[i], userId) then 1 else 0) + (if Active(k, userId) then 1 else 0)
  {
    var n := |keys| - 1;
    if i < n {
      assert keys[i := k][..n] == keys[..n][i := k];
      ActiveCountUpdate(keys[..n], i, k, userId);
    } else {
      assert keys[i := k][..n] == keys[..n];
    }
  }

  ghost predicate UsersOk(users: seq<User>) {
    && (forall i :: 0 <= i < |users| ==> users[i].id == i)
    && (forall i, j :: 0 <= i < j < |users| ==> users[i].email != users[j].email)
  }

  /** Wallet ids, one wallet per user (the one-to-one owner column) and
      unique wallet numbers. The balance column has no sign constraint. */
  ghost predicate WalletsOk(wallets: seq<Wallet>, userCount: nat) {
    && (forall i :: 0 <= i < |wallets| ==> wallets[i].id == i && wallets[i].userId < userCount)
    && (forall i, j :: 0 <= i < j < |wallets| ==>
          wallets[i].userId != wallets[j].userId && wallets[i].walletNumber != wallets[j].walletNumber)
  }

  /** No balance below zero: a property of the ledger's operations, not one
      the datastore enforces. */
  ghost predicate Solvent(wallets: seq<Wallet>) {
    forall i :: 0 <= i < |wallets| ==> wallets[i].balance >= 0
  }

  /** Every transaction belongs to a wallet, and references are unique. */
  ghost predicate TxnsOk(txns: seq<Transaction>, walletCount: nat) {
    && (forall i :: 0 <= i < |txns| ==> txns[i].walletId < walletCount)
    && (forall i, j :: 0 <= i < j < |txns| ==> txns[i].reference != txns[j].reference)
  }

  /** Key ids, owners, unique stored hashes, and at most five
      non-revoked keys per user. */
  ghost predicate KeysOk(keys: seq<ApiKey>, userCount: nat) {
    && (forall i :: 0 <= i < |keys| ==> keys[i].id == i && keys[i].userId < userCount)
    && (forall i, j :: 0 <= i < j < |keys| ==> keys[i].key != keys[j].key)
    && (forall u: UserId :: ActiveCount(keys, u) <= MaxActiveKeys)
  }

  /** The integrity of the whole datastore. */
  ghost predicate StoreOk(users: seq<User>, wallets: seq<Wallet>, txns: seq<Transaction>, apiKeys: seq<ApiKey>) {
    && UsersOk(users)
    && WalletsOk(wallets, |users|)
    && TxnsOk(txns, |wallets|)
    && KeysOk(apiKeys, |users|)
  }

  class Datastore {
    var users: seq<User>
    var wallets: seq<Wallet>
    var txns: seq<Transaction>
    var apiKeys: seq<ApiKey>

    ghost predicate Valid()
      reads this
    {
      StoreOk(users, wallets, txns, apiKeys)
    }

    constructor ()
      ensures Valid()
      ensures users == [] && wallets == [] && txns == [] && apiKeys == []
    {
      users, wallets, txns, apiKeys := [], [], [], [];
    }
  }
}
