/** The ledger engine (WalletService): deposit initiation, webhook settlement,
    peer transfer and the read-only queries. Each state-changing operation is
    a step function over the tables it touches, with its properties as
    lemmas, and a WalletService method that performs the writes in place on
    the datastore and is proved to produce exactly that step. */
module Wallets {
  import opened Entities
  import opened Encoding
  import opened Store

  /** The deposit floor of ₦100, in kobo. */
  const MinDeposit: Kobo := 10000
  const ChargeSuccess: string := "charge.success"

  const AmountNotPositive: string := "Amount must be greater than 0"
  const BelowMinimum: string := "Minimum deposit is ₦100"
  const WalletNotFound: string := "Wallet not found"
  const PaymentFallback: string := "Failed to initialize payment"
  const InvalidSignature: string := "Invalid signature"
  const TransactionNotFound: string := "Transaction not found"
  const InvalidAmount: string := "Invalid amount"
  const SenderWalletNotFound: string := "Your wallet not found"
  const RecipientNotFound: string := "Recipient wallet not found"
  const SelfTransfer: string := "Cannot transfer to yourself"
  const MissingWallet: string := "Cannot read properties of null (reading 'balance')"

  /** The 16 random bytes a reference is made from. */
  type RefDraw = b: seq<byte> | |b| == 16 witness seq(16, _ => 0)

  /** `'TXN_'` followed by the hex of 16 random bytes. */
  function GenerateReference(bytes: RefDraw): (r: string)
    ensures |r| == 36
    ensures r[..4] == "TXN_" && IsHexString(r[4..])
  {
    var r := "TXN_" + Hex(bytes);
    assert r[4..] == Hex(bytes);
    r
  }

  /** Distinct random draws give distinct references. */
  lemma ReferenceInjective(a: RefDraw, b: RefDraw)
    requires GenerateReference(a) == GenerateReference(b)
    ensures a == b
  {
    assert GenerateReference(a)[4..] == Hex(a);
    assert GenerateReference(b)[4..] == Hex(b);
    HexInjective(a, b);
  }

  // ---------------------------------------------------------------- deposit

  /** The body posted to the payment processor's `/transaction/initialize`. */
  datatype PaystackInit = PaystackInit(email: string, amount: Kobo, reference: string)

  /** What the processor call yields: a payment link, or a failure whose
      response may carry a message and response data. */
  datatype PaystackReply =
    | Initialized(authorizationUrl: string, accessCode: string)
    | Declined(message: Option<string>, details: Option<string>)

  datatype DepositLink = DepositLink(reference: string, authorizationUrl: string, accessCode: string)

  datatype DepositOutcome = DepositOutcome(txns: seq<Transaction>, result: Result<DepositLink>)

  /** `wallet.user?.email || ''`: the owner's e-mail, or empty. */
  function OwnerEmail(users: seq<User>, w: Wallet): string {
    if w.userId < |users| then users[w.userId].email else ""
  }

  /** `error.response?.data?.message || 'Failed to initialize payment'`. */
  function FailureMessage(message: Option<string>): string {
    if message.Some? && message.value != "" then message.value else PaymentFallback
  }

  function DepositStep(users: seq<User>, wallets: seq<Wallet>, txns: seq<Transaction>, userId: UserId,
                       amount: Kobo, refBytes: RefDraw, now: Time,
                       processor: PaystackInit -> PaystackReply): (o: DepositOutcome)
    ensures txns <= o.txns && |o.txns| <= |txns| + 1
    ensures |o.txns| == |txns| + 1 ==>
      var t := o.txns[|txns|];
      t.txnType == Deposit && t.status == Pending && t.amount == amount && t.reference == GenerateReference(refBytes)
    ensures o.result.Ok? ==> |o.txns| == |txns| + 1 && o.result.value.reference == o.txns[|txns|].reference
  {
    if amount <= 0 then DepositOutcome(txns, Err(BadRequest(AmountNotPositive)))
    else if amount < MinDeposit then DepositOutcome(txns, Err(BadRequest(BelowMinimum)))
    else match FindWalletByUser(wallets, userId)
      case None => DepositOutcome(txns, Err(NotFound(WalletNotFound)))
      case Some(w) =>
        var reference := GenerateReference(refBytes);
        if HasReference(txns, reference) then DepositOutcome(txns, Err(Internal(UniqueViolation)))
        else
          var pending := Transaction(reference, Deposit, amount, Pending, None, None, wallets[w].id, now);
          var reply := processor(PaystackInit(OwnerEmail(users, wallets[w]), amount, reference));
          DepositOutcome(txns + [pending], match reply
            case Initialized(url, code) => Ok(DepositLink(reference, url, code))
            case Declined(message, details) => Err(PaymentInitFailed(FailureMessage(message), details)))
  }

  /** An amount that is not positive, or below the floor, is refused and
      records nothing. */
  lemma DepositRejectsSmallAmount(users: seq<User>, wallets: seq<Wallet>, txns: seq<Transaction>, userId: UserId,
                                  amount: Kobo, refBytes: RefDraw, now: Time, processor: PaystackInit -> PaystackReply)
    requires amount < MinDeposit
    ensures var o := DepositStep(users, wallets, txns, userId, amount, refBytes, now, processor);
      && o.txns == txns
      && o.result == Err(BadRequest(if amount <= 0 then AmountNotPositive else BelowMinimum))
  {
  }

  /** A user without a wallet gets NotFound and nothing is recorded. */
  lemma DepositNeedsWallet(users: seq<User>, wallets: seq<Wallet>, txns: seq<Transaction>, userId: UserId,
                           amount: Kobo, refBytes: RefDraw, now: Time, processor: PaystackInit -> PaystackReply)
    requires amount >= MinDeposit
    requires forall i :: 0 <= i < |wallets| ==> wallets[i].userId != userId
    ensures var o := DepositStep(users, wallets, txns, userId, amount, refBytes, now, processor);
      o.txns == txns && o.result == Err(NotFound(WalletNotFound))
  {
  }

  /** Otherwise exactly one pending deposit with the fresh reference is
      recorded on the user's wallet before the processor is asked, and it
      stays whether the processor accepts or declines; the processor is sent
      the amount and that reference, and its link is passed through. */
  lemma DepositRecordsPending(users: seq<User>, wallets: seq<Wallet>, txns: seq<Transaction>, userId: UserId,
                              amount: Kobo, refBytes: RefDraw, now: Time, processor: PaystackInit -> PaystackReply,
                              w: nat)
    requires amount >= MinDeposit
    requires w < |wallets| && wallets[w].userId == userId
    requires forall i :: 0 <= i < w ==> wallets[i].userId != userId
    requires !HasReference(txns, GenerateReference(refBytes))
    ensures var o := DepositStep(users, wallets, txns, userId, amount, refBytes, now, processor);
      var reference := GenerateReference(refBytes);
      var reply := processor(PaystackInit(OwnerEmail(users, wallets[w]), amount, reference));
      && o.txns == txns + [Transaction(reference, Deposit, amount, Pending, None, None, wallets[w].id, now)]
      && (reply.Initialized? ==> o.result == Ok(DepositLink(reference, reply.authorizationUrl, reply.accessCode)))
      && (reply.Declined? ==> o.result == Err(PaymentInitFailed(FailureMessage(reply.message), reply.details)))
  {
    assert FindWalletByUser(wallets, userId) == Some(w);
  }

  lemma {:induction false} DepositPreservesIntegrity(users: seq<User>, wallets: seq<Wallet>, txns: seq<Transaction>,
                                  userId: UserId, amount: Kobo, refBytes: RefDraw, now: Time,
                                  processor: PaystackInit -> PaystackReply)
    requires WalletsOk(wallets, |users|) && TxnsOk(txns, |wallets|)
    ensures TxnsOk(DepositStep(users, wallets, txns, userId, amount, refBytes, now, processor).txns, |wallets|)
  {
  }

  // ---------------------------------------------------------------- webhook

  datatype ChargeData = ChargeData(reference: string, amount: Kobo)
  /** The processor's event; `data.amount` is in kobo and its sign is not checked. */
  datatype WebhookPayload = WebhookPayload(event: string, data: ChargeData)

  datatype WebhookOutcome = WebhookOutcome(wallets: seq<Wallet>, txns: seq<Transaction>, result: Result<bool>)

  /** Settlement. `hmac` is the HMAC-SHA512 of the serialized payload under
      the shared secret. The credit is the payload's amount, not the stored one. */
  function WebhookStep(wallets: seq<Wallet>, txns: seq<Transaction>, payload: WebhookPayload, signature: string,
                       hmac: WebhookPayload -> string): (o: WebhookOutcome)
    ensures |o.wallets| == |wallets| && |o.txns| == |txns|
    ensures o.result.Err? || hmac(payload) != signature ==> o.wallets == wallets && o.txns == txns
    ensures hmac(payload) != signature <==> o.result == Err(BadRequest(InvalidSignature))
  {
    if hmac(payload) != signature then WebhookOutcome(wallets, txns, Err(BadRequest(InvalidSignature)))
    else if payload.event != ChargeSuccess then WebhookOutcome(wallets, txns, Ok(true))
    else match FindTxnByReference(txns, payload.data.reference)
      case None => WebhookOutcome(wallets, txns, Ok(true))
      case Some(i) =>
        if txns[i].status == Success then WebhookOutcome(wallets, txns, Ok(true))
        else if txns[i].walletId >= |wallets| then WebhookOutcome(wallets, txns, Err(Internal(MissingWallet)))
        else
          var w := txns[i].walletId;
          WebhookOutcome(wallets[w := wallets[w].(balance := wallets[w].balance + payload.data.amount)],
                         txns[i := txns[i].(status := Success)], Ok(true))
  }

  /** A signature other than the payload's HMAC is refused with no change. */
  lemma WebhookRejectsBadSignature(wallets: seq<Wallet>, txns: seq<Transaction>, payload: WebhookPayload,
                                   signature: string, hmac: WebhookPayload -> string)
    requires hmac(payload) != signature
    ensures WebhookStep(wallets, txns, payload, signature, hmac)
         == WebhookOutcome(wallets, txns, Err(BadRequest(InvalidSignature)))
  {
  }

  /** A signed event that is not a successful charge, names an unknown
      reference, or names a settled transaction is acknowledged with no change. */
  lemma WebhookAbsorbs(wallets: seq<Wallet>, txns: seq<Transaction>, payload: WebhookPayload,
                       hmac: WebhookPayload -> string)
    requires || payload.event != ChargeSuccess
             || !HasReference(txns, payload.data.reference)
             || (exists i :: 0 <= i < |txns| && txns[i].reference == payload.data.reference && txns[i].status == Success)
    requires TxnsOk(txns, |wallets|)
    ensures WebhookStep(wallets, txns, payload, hmac(payload), hmac) == WebhookOutcome(wallets, txns, Ok(true))
  {
    match FindTxnByReference(txns, payload.data.reference)
    case None =>
    case Some(i) =>
      if payload.event == ChargeSuccess {
        var j :| 0 <= j < |txns| && txns[j].reference == payload.data.reference && txns[j].status == Success;
        assert i == j;
      }
  }

  /** Settling a known unsettled transaction marks it SUCCESS and credits
      exactly its wallet by the payload amount; nothing else changes. */
  lemma WebhookSettles(wallets: seq<Wallet>, txns: seq<Transaction>, payload: WebhookPayload,
                       hmac: WebhookPayload -> string, i: nat)
    requires TxnsOk(txns, |wallets|)
    requires payload.event == ChargeSuccess
    requires i < |txns| && txns[i].reference == payload.data.reference && txns[i].status != Success
    ensures var o := WebhookStep(wallets, txns, payload, hmac(payload), hmac);
      var w := txns[i].walletId;
      && o.result == Ok(true)
      && |o.txns| == |txns| && o.txns[i] == txns[i].(status := Success)
      && (forall j :: 0 <= j < |txns| && j != i ==> o.txns[j] == txns[j])
      && |o.wallets| == |wallets| && o.wallets[w].balance == wallets[w].balance + payload.data.amount
      && o.wallets[w] == wallets[w].(balance := o.wallets[w].balance)
      && (forall k :: 0 <= k < |wallets| && k != w ==> o.wallets[k] == wallets[k])
      && Total(o.wallets) == Total(wallets) + payload.data.amount
  {
    assert FindTxnByReference(txns, payload.data.reference) == Some(i);
    var w := txns[i].walletId;
    TotalUpdate(wallets, w, wallets[w].(balance := wallets[w].balance + payload.data.amount));
  }

  /** Delivering the same payload and signature a second time changes nothing
      and is answered as the first delivery was: a deposit is credited at most once. */
  lemma WebhookIdempotent(wallets: seq<Wallet>, txns: seq<Transaction>, payload: WebhookPayload,
                          signature: string, hmac: WebhookPayload -> string)
    ensures var o := WebhookStep(wallets, txns, payload, signature, hmac);
      WebhookStep(o.wallets, o.txns, payload, signature, hmac) == o
  {
    var o := WebhookStep(wallets, txns, payload, signature, hmac);
    if hmac(payload) == signature && payload.event == ChargeSuccess {
      match FindTxnByReference(txns, payload.data.reference)
      case None =>
      case Some(i) =>
        if txns[i].status != Success && txns[i].walletId < |wallets| {
          assert FindTxnByReference(o.txns, payload.data.reference) == Some(i) by {
            FirstIndexStable(txns, o.txns, (t: Transaction) => t.reference == payload.data.reference, i);
          }
        }
    }
  }

  /** A search finds the same first match in a table whose rows agree on the
      searched column. */
  lemma FirstIndexStable<T>(s: seq<T>, s': seq<T>, p: T -> bool, i: nat)
    requires |s| == |s'| && FirstIndex(s, p) == Some(i)
    requires forall j :: 0 <= j < |s| ==> p(s[j]) == p(s'[j])
    ensures FirstIndex(s', p) == Some(i)
  {
  }

  /** Settlement keeps the wallet and transaction tables' integrity. It keeps
      every balance non-negative when the payload's amount is non-negative;
      the amount's sign is not checked. */
  lemma WebhookPreservesIntegrity(users: seq<User>, wallets: seq<Wallet>, txns: seq<Transaction>,
                                  payload: WebhookPayload, signature: string, hmac: WebhookPayload -> string)
    requires WalletsOk(wallets, |users|) && TxnsOk(txns, |wallets|)
    ensures var o := WebhookStep(wallets, txns, payload, signature, hmac);
      && WalletsOk(o.wallets, |users|) && TxnsOk(o.txns, |o.wallets|)
      && (Solvent(wallets) && payload.data.amount >= 0 ==> Solvent(o.wallets))
  {
    var o := WebhookStep(wallets, txns, payload, signature, hmac);
    assert |o.wallets| == |wallets|;
    assert forall k :: 0 <= k < |wallets| ==>
      && o.wallets[k].userId == wallets[k].userId
      && o.wallets[k].walletNumber == wallets[k].walletNumber && o.wallets[k].id == wallets[k].id
      && (payload.data.amount >= 0 ==> o.wallets[k].balance >= wallets[k].balance);
    assert |o.txns| == |txns|;
    assert forall k :: 0 <= k < |txns| ==> o.txns[k].reference == txns[k].reference && o.txns[k].walletId == txns[k].walletId;
  }

  /** A signed charge with a negative amount on a pending deposit is
      settled like any other and lowers the wallet's balance, below zero
      when the amount exceeds the balance. */
  lemma WebhookNegativeCharge(wallets: seq<Wallet>, txns: seq<Transaction>, payload: WebhookPayload,
                              hmac: WebhookPayload -> string, i: nat)
    requires TxnsOk(txns, |wallets|)
    requires payload.event == ChargeSuccess && payload.data.amount < 0
    requires i < |txns| && txns[i].reference == payload.data.reference && txns[i].status != Success
    ensures var o := WebhookStep(wallets, txns, payload, hmac(payload), hmac);
      var w := txns[i].walletId;
      && o.result == Ok(true)
      && o.wallets[w].balance < wallets[w].balance
      && (wallets[w].balance + payload.data.amount < 0 ==> !Solvent(o.wallets))
  {
    WebhookSettles(wallets, txns, payload, hmac, i);
  }

  // --------------------------------------------------------------- transfer

  datatype TransferAck = TransferAck(status: string, message: string)
  const Completed: TransferAck := TransferAck("success", "Transfer completed")

  datatype TransferOutcome = TransferOutcome(wallets: seq<Wallet>, txns: seq<Transaction>, result: Result<TransferAck>)

  /** The validation cascade: on success, the sender's and the recipient's
      positions. A clash of the two generated references with each other or
      with a stored one is the unique-constraint failure that rolls the unit
      of work back. */
  function TransferCheck(wallets: seq<Wallet>, txns: seq<Transaction>, userId: UserId, recipientWalletNumber: string,
                         amount: Kobo, outRef: string, inRef: string): (c: Result<(nat, nat)>)
    ensures c.Ok? ==>
      var (s, r) := c.value;
      && s < |wallets| && r < |wallets| && s != r && 0 < amount <= wallets[s].balance
      && wallets[s].userId == userId && wallets[r].walletNumber == recipientWalletNumber
      && outRef != inRef && !HasReference(txns, outRef) && !HasReference(txns, inRef)
  {
    if amount <= 0 then Err(BadRequest(InvalidAmount))
    else match FindWalletByUser(wallets, userId)
      case None => Err(NotFound(SenderWalletNotFound))
      case Some(s) =>
        if wallets[s].balance < amount then Err(InsufficientBalance(wallets[s].balance, amount))
        else match FindWalletByNumber(wallets, recipientWalletNumber)
          case None => Err(NotFound(RecipientNotFound))
          case Some(r) =>
            if wallets[s].id == wallets[r].id then Err(BadRequest(SelfTransfer))
            else if outRef == inRef || HasReference(txns, outRef) || HasReference(txns, inRef) then
              Err(Internal(UniqueViolation))
            else Ok((s, r))
  }

  /** Debits wallet `s` and credits wallet `r` by `amount`. */
  function Move(wallets: seq<Wallet>, s: nat, r: nat, amount: Kobo): seq<Wallet>
    requires s < |wallets| && r < |wallets|
  {
    wallets[s := wallets[s].(balance := wallets[s].balance - amount)]
           [r := wallets[r].(balance := wallets[r].balance + amount)]
  }

  /** Moving funds between two distinct wallets leaves the sum of all balances as it was. */
  lemma MoveConserves(wallets: seq<Wallet>, s: nat, r: nat, amount: Kobo)
    requires s < |wallets| && r < |wallets| && s != r
    ensures Total(Move(wallets, s, r, amount)) == Total(wallets)
  {
    var ws1 := wallets[s := wallets[s].(balance := wallets[s].balance - amount)];
    var credited := wallets[r].(balance := wallets[r].balance + amount);
    TotalUpdate(wallets, s, ws1[s]);
    TotalUpdate(ws1, r, credited);
    assert Move(wallets, s, r, amount) == ws1[r := credited];
  }

  /** The settled debit on the sender's wallet and credit on the recipient's. */
  function TransferRecordPair(wallets: seq<Wallet>, s: nat, r: nat, recipientWalletNumber: string, amount: Kobo,
                              outRef: string, inRef: string, now: Time): seq<Transaction>
    requires s < |wallets| && r < |wallets|
  {
    [Transaction(outRef, TransferOut, amount, Success, Some(recipientWalletNumber), None, wallets[s].id, now),
     Transaction(inRef, TransferIn, amount, Success, None, Some(wallets[s].walletNumber), wallets[r].id, now)]
  }

  /** The validation cascade, then one atomic unit of four writes. */
  function TransferStep(wallets: seq<Wallet>, txns: seq<Transaction>, userId: UserId, recipientWalletNumber: string,
                        amount: Kobo, outBytes: RefDraw, inBytes: RefDraw, now: Time): (o: TransferOutcome)
    ensures |o.wallets| == |wallets| && txns <= o.txns
    ensures o.result.Err? ==> o.wallets == wallets && o.txns == txns
    ensures o.result.Ok? ==> o.result.value == Completed && |o.txns| == |txns| + 2
  {
    var outRef, inRef := GenerateReference(outBytes), GenerateReference(inBytes);
    match TransferCheck(wallets, txns, userId, recipientWalletNumber, amount, outRef, inRef)
    case Err(e) => TransferOutcome(wallets, txns, Err(e))
    case Ok((s, r)) =>
      TransferOutcome(Move(wallets, s, r, amount),
                      txns + TransferRecordPair(wallets, s, r, recipientWalletNumber, amount, outRef, inRef, now),
                      Ok(Completed))
  }

  /** The checks run in a fixed order, and the first that fails decides the error. */
  lemma TransferValidationOrder(wallets: seq<Wallet>, txns: seq<Transaction>, userId: UserId,
                                recipientWalletNumber: string, amount: Kobo, outBytes: RefDraw,
                                inBytes: RefDraw, now: Time)
    ensures var r := TransferStep(wallets, txns, userId, recipientWalletNumber, amount, outBytes, inBytes, now).result;
      var s := FindWalletByUser(wallets, userId);
      var t := FindWalletByNumber(wallets, recipientWalletNumber);
      && (amount <= 0 ==> r == Err(BadRequest(InvalidAmount)))
      && (amount > 0 && s.None? ==> r == Err(NotFound(SenderWalletNotFound)))
      && (amount > 0 && s.Some? && wallets[s.value].balance < amount ==>
            r == Err(InsufficientBalance(wallets[s.value].balance, amount)))
      && (amount > 0 && s.Some? && wallets[s.value].balance >= amount && t.None? ==>
            r == Err(NotFound(RecipientNotFound)))
      && ((amount > 0 && s.Some? && wallets[s.value].balance >= amount && t.Some? &&
           wallets[s.value].id == wallets[t.value].id) ==> r == Err(BadRequest(SelfTransfer)))
  {
  }

  /** A failed transfer leaves every wallet and transaction as it was. */
  lemma TransferFailureChangesNothing(wallets: seq<Wallet>, txns: seq<Transaction>, userId: UserId,
                                      recipientWalletNumber: string, amount: Kobo, outBytes: RefDraw,
                                      inBytes: RefDraw, now: Time)
    ensures var o := TransferStep(wallets, txns, userId, recipientWalletNumber, amount, outBytes, inBytes, now);
      o.result.Err? ==> o.wallets == wallets && o.txns == txns
  {
  }

  /** A transfer neither creates nor destroys money. */
  lemma TransferConserves(wallets: seq<Wallet>, txns: seq<Transaction>, userId: UserId,
                          recipientWalletNumber: string, amount: Kobo, outBytes: RefDraw,
                          inBytes: RefDraw, now: Time)
    ensures Total(TransferStep(wallets, txns, userId, recipientWalletNumber, amount, outBytes, inBytes, now).wallets)
         == Total(wallets)
  {
    var c := TransferCheck(wallets, txns, userId, recipientWalletNumber, amount,
                           GenerateReference(outBytes), GenerateReference(inBytes));
    if c.Ok? {
      MoveConserves(wallets, c.value.0, c.value.1, amount);
    }
  }

  /** When every check passes and both fresh references are unused, the
      transfer goes through: the funds move and the two records are appended. */
  lemma TransferSucceeds(users: seq<User>, wallets: seq<Wallet>, txns: seq<Transaction>, userId: UserId,
                         recipientWalletNumber: string, amount: Kobo, outBytes: RefDraw, inBytes: RefDraw,
                         now: Time, s: nat, r: nat)
    requires WalletsOk(wallets, |users|)
    requires s < |wallets| && wallets[s].userId == userId
    requires r < |wallets| && wallets[r].walletNumber == recipientWalletNumber && r != s
    requires 0 < amount <= wallets[s].balance
    requires GenerateReference(outBytes) != GenerateReference(inBytes)
    requires !HasReference(txns, GenerateReference(outBytes)) && !HasReference(txns, GenerateReference(inBytes))
    ensures TransferStep(wallets, txns, userId, recipientWalletNumber, amount, outBytes, inBytes, now)
         == TransferOutcome(Move(wallets, s, r, amount),
                            txns + TransferRecordPair(wallets, s, r, recipientWalletNumber, amount,
                                                      GenerateReference(outBytes), GenerateReference(inBytes), now),
                            Ok(Completed))
  {
    FirstIndexAt(wallets, (w: Wallet) => w.userId == userId, s);
    FirstIndexAt(wallets, (w: Wallet) => w.walletNumber == recipientWalletNumber, r);
    assert TransferCheck(wallets, txns, userId, recipientWalletNumber, amount,
                         GenerateReference(outBytes), GenerateReference(inBytes)) == Ok((s, r));
  }

  /** A successful transfer debits the sender and credits the recipient by the
      amount, changes no other wallet, and leaves the sender non-negative. */
  lemma TransferMovesFunds(users: seq<User>, wallets: seq<Wallet>, txns: seq<Transaction>, userId: UserId,
                           recipientWalletNumber: string, amount: Kobo, outBytes: RefDraw,
                           inBytes: RefDraw, now: Time, s: nat, r: nat)
    requires WalletsOk(wallets, |users|)
    requires s < |wallets| && wallets[s].userId == userId
    requires r < |wallets| && wallets[r].walletNumber == recipientWalletNumber
    ensures var o := TransferStep(wallets, txns, userId, recipientWalletNumber, amount, outBytes, inBytes, now);
      o.result.Ok? ==>
        && s != r && |o.wallets| == |wallets|
        && o.wallets[s] == wallets[s].(balance := wallets[s].balance - amount)
        && o.wallets[r] == wallets[r].(balance := wallets[r].balance + amount)
        && o.wallets[s].balance >= 0
        && (forall k :: 0 <= k < |wallets| && k != s && k != r ==> o.wallets[k] == wallets[k])
  {
    var c := TransferCheck(wallets, txns, userId, recipientWalletNumber, amount,
                           GenerateReference(outBytes), GenerateReference(inBytes));
    if c.Ok? {
      assert c.value.0 == s && c.value.1 == r;
    }
  }

  /** A successful transfer appends exactly two settled records with distinct
      fresh references: the debit on the sender's wallet naming the recipient's
      number, then the credit on the recipient's wallet naming the sender's. */
  lemma TransferRecords(wallets: seq<Wallet>, txns: seq<Transaction>, userId: UserId,
                        recipientWalletNumber: string, amount: Kobo, outBytes: RefDraw,
                        inBytes: RefDraw, now: Time)
    ensures var o := TransferStep(wallets, txns, userId, recipientWalletNumber, amount, outBytes, inBytes, now);
      o.result.Ok? ==>
        var s := FindWalletByUser(wallets, userId).value;
        var r := FindWalletByNumber(wallets, recipientWalletNumber).value;
        && s < |wallets| && r < |wallets|
        && |o.txns| == |txns| + 2 && o.txns[..|txns|] == txns
        && o.txns[|txns|] == Transaction(GenerateReference(outBytes), TransferOut, amount, Success,
                                         Some(wallets[r].walletNumber), None, wallets[s].id, now)
        && o.txns[|txns| + 1] == Transaction(GenerateReference(inBytes), TransferIn, amount, Success,
                                             None, Some(wallets[s].walletNumber), wallets[r].id, now)
        && o.txns[|txns|].reference != o.txns[|txns| + 1].reference
        && !HasReference(txns, o.txns[|txns|].reference) && !HasReference(txns, o.txns[|txns| + 1].reference)
  {
  }

  lemma TransferPreservesIntegrity(users: seq<User>, wallets: seq<Wallet>, txns: seq<Transaction>, userId: UserId,
                                   recipientWalletNumber: string, amount: Kobo, outBytes: RefDraw,
                                   inBytes: RefDraw, now: Time)
    requires WalletsOk(wallets, |users|) && TxnsOk(txns, |wallets|)
    ensures var o := TransferStep(wallets, txns, userId, recipientWalletNumber, amount, outBytes, inBytes, now);
      && WalletsOk(o.wallets, |users|) && TxnsOk(o.txns, |o.wallets|)
      && (Solvent(wallets) ==> Solvent(o.wallets))
  {
    var c := TransferCheck(wallets, txns, userId, recipientWalletNumber, amount,
                           GenerateReference(outBytes), GenerateReference(inBytes));
    if c.Ok? {
      var (s, r) := c.value;
      MoveKeepsWallets(wallets, |users|, s, r, amount);
      var pair := TransferRecordPair(wallets, s, r, recipientWalletNumber, amount,
                                     GenerateReference(outBytes), GenerateReference(inBytes), now);
      AppendKeepsTxns(txns, |wallets|, pair[0]);
      AppendKeepsTxns(txns + [pair[0]], |wallets|, pair[1]);
      assert txns + pair == txns + [pair[0]] + [pair[1]];
    }
  }

  /** Moving funds keeps the wallet table's integrity, and keeps a solvent
      ledger solvent when the sender holds the non-negative amount. */
  lemma MoveKeepsWallets(wallets: seq<Wallet>, userCount: nat, s: nat, r: nat, amount: Kobo)
    requires WalletsOk(wallets, userCount) && s < |wallets| && r < |wallets| && s != r
    ensures WalletsOk(Move(wallets, s, r, amount), userCount)
    ensures Solvent(wallets) && 0 <= amount <= wallets[s].balance ==> Solvent(Move(wallets, s, r, amount))
  {
    var ws1 := wallets[s := wallets[s].(balance := wallets[s].balance - amount)];
    SetBalanceKeepsWallets(wallets, userCount, s, wallets[s].balance - amount);
    SetBalanceKeepsWallets(ws1, userCount, r, wallets[r].balance + amount);
  }

  /** A transfer keeps the whole datastore's integrity. */
  lemma TransferKeepsStore(users: seq<User>, wallets: seq<Wallet>, txns: seq<Transaction>, apiKeys: seq<ApiKey>,
                           userId: UserId, recipientWalletNumber: string, amount: Kobo, outBytes: RefDraw,
                           inBytes: RefDraw, now: Time)
    requires StoreOk(users, wallets, txns, apiKeys)
    ensures var o := TransferStep(wallets, txns, userId, recipientWalletNumber, amount, outBytes, inBytes, now);
      StoreOk(users, o.wallets, o.txns, apiKeys) && (Solvent(wallets) ==> Solvent(o.wallets))
  {
    TransferPreservesIntegrity(users, wallets, txns, userId, recipientWalletNumber, amount, outBytes, inBytes, now);
  }

  /** Setting one wallet's balance keeps the wallet table's integrity. */
  lemma SetBalanceKeepsWallets(wallets: seq<Wallet>, userCount: nat, i: nat, balance: Kobo)
    requires WalletsOk(wallets, userCount) && i < |wallets|
    ensures WalletsOk(wallets[i := wallets[i].(balance := balance)], userCount)
  {
  }

  /** Appending a record on an existing wallet with an unused reference keeps
      the transaction table's integrity. */
  lemma AppendKeepsTxns(txns: seq<Transaction>, walletCount: nat, t: Transaction)
    requires TxnsOk(txns, walletCount) && t.walletId < walletCount && !HasReference(txns, t.reference)
    ensures TxnsOk(txns + [t], walletCount)
  {
  }

  /** A transfer request, as the route hands it to the ledger. */
  datatype TransferRequest = TransferRequest(userId: UserId, recipientWalletNumber: string, amount: Kobo,
                                             outBytes: RefDraw, inBytes: RefDraw, now: Time)

  function ApplyTransfers(wallets: seq<Wallet>, txns: seq<Transaction>, requests: seq<TransferRequest>): (o: TransferOutcome)
    decreases |requests|
  {
    if requests == [] then TransferOutcome(wallets, txns, Ok(Completed))
    else
      var q := requests[0];
      var o := TransferStep(wallets, txns, q.userId, q.recipientWalletNumber, q.amount, q.outBytes, q.inBytes, q.now);
      ApplyTransfers(o.wallets, o.txns, requests[1..])
  }

  /** Any sequence of transfers, succeeding or failing, keeps the sum of all
      balances, and keeps every balance non-negative. */
  lemma {:induction false} TransfersConserve(users: seq<User>, wallets: seq<Wallet>, txns: seq<Transaction>,
                                             requests: seq<TransferRequest>)
    requires WalletsOk(wallets, |users|) && TxnsOk(txns, |wallets|) && Solvent(wallets)
    ensures var o := ApplyTransfers(wallets, txns, requests);
      Total(o.wallets) == Total(wallets) && WalletsOk(o.wallets, |users|) && Solvent(o.wallets)
    decreases |requests|
  {
    if requests != [] {
      var q := requests[0];
      var o := TransferStep(wallets, txns, q.userId, q.recipientWalletNumber, q.amount, q.outBytes, q.inBytes, q.now);
      TransferConserves(wallets, txns, q.userId, q.recipientWalletNumber, q.amount, q.outBytes, q.inBytes, q.now);
      TransferPreservesIntegrity(users, wallets, txns, q.userId, q.recipientWalletNumber, q.amount, q.outBytes, q.inBytes, q.now);
      TransfersConserve(users, o.wallets, o.txns, requests[1..]);
    }
  }

  // ---------------------------------------------------------------- queries

  datatype DepositStatus = DepositStatus(reference: string, status: TransactionStatus, amount: Kobo)

  /** Any caller may poll any deposit by reference; transfer records are not deposits. */
  function GetDepositStatus(txns: seq<Transaction>, reference: string): (r: Result<DepositStatus>)
    ensures r.Ok? <==> exists i :: 0 <= i < |txns| && txns[i].reference == reference && txns[i].txnType == Deposit
    ensures r.Ok? ==> exists i :: 0 <= i < |txns| && txns[i].reference == reference && txns[i].txnType == Deposit
                                  && r.value == DepositStatus(reference, txns[i].status, txns[i].amount)
    ensures r.Err? ==> r.error == NotFound(TransactionNotFound)
  {
    match FirstIndex(txns, (t: Transaction) => t.reference == reference && t.txnType == Deposit)
    case None => Err(NotFound(TransactionNotFound))
    case Some(i) => Ok(DepositStatus(txns[i].reference, txns[i].status, txns[i].amount))
  }

  function GetBalance(wallets: seq<Wallet>, userId: UserId): (r: Result<Kobo>)
    ensures r.Ok? <==> exists i :: 0 <= i < |wallets| && wallets[i].userId == userId
    ensures r.Ok? ==> exists i :: 0 <= i < |wallets| && wallets[i].userId == userId && r.value == wallets[i].balance
    ensures r.Err? ==> r.error == NotFound(WalletNotFound)
  {
    match FindWalletByUser(wallets, userId)
    case None => Err(NotFound(WalletNotFound))
    case Some(i) => Ok(wallets[i].balance)
  }

  /** On a solvent ledger the reported balance is never negative. */
  lemma BalanceNonNegative(wallets: seq<Wallet>, userId: UserId)
    requires Solvent(wallets)
    ensures GetBalance(wallets, userId).Ok? ==> GetBalance(wallets, userId).value >= 0
  {
  }

  /** One history entry: the counterparty numbers appear only when set and non-empty. */
  datatype TxnView = TxnView(txnType: TransactionType, amount: Kobo, status: TransactionStatus, reference: string,
                             createdAt: Time, recipientWalletNumber: Option<string>, senderWalletNumber: Option<string>)

  function Present(s: Option<string>): Option<string> {
    if s.Some? && s.value != "" then s else None
  }

  function TxnEntry(t: Transaction): TxnView {
    TxnView(t.txnType, t.amount, t.status, t.reference, t.createdAt,
            Present(t.recipientWalletNumber), Present(t.senderWalletNumber))
  }

  /** The wallet's transactions, newest first. */
  function History(txns: seq<Transaction>, walletId: WalletId): (r: seq<TxnView>)
    ensures forall v :: v in r ==> exists i :: 0 <= i < |txns| && txns[i].walletId == walletId && v == TxnEntry(txns[i])
    ensures forall i :: 0 <= i < |txns| && txns[i].walletId == walletId ==> TxnEntry(txns[i]) in r
  {
    NewestFirst(txns, (t: Transaction) => t.walletId == walletId, TxnEntry)
  }

  /** A wallet with no transactions has an empty history; a newly recorded
      transaction comes first in its wallet's history, ahead of the older
      entries, each listed once. */
  lemma HistoryNewestFirst(txns: seq<Transaction>, t: Transaction, walletId: WalletId)
    ensures History([], walletId) == []
    ensures History(txns + [t], walletId)
         == (if t.walletId == walletId then [TxnEntry(t)] else []) + History(txns, walletId)
  {
    NewestFirstAppend(txns, t, (t: Transaction) => t.walletId == walletId, TxnEntry);
  }

  function GetTransactions(wallets: seq<Wallet>, txns: seq<Transaction>, userId: UserId): (r: Result<seq<TxnView>>)
    ensures r.Ok? <==> exists i :: 0 <= i < |wallets| && wallets[i].userId == userId
    ensures r.Ok? ==> exists i :: 0 <= i < |wallets| && wallets[i].userId == userId
                                  && r.value == History(txns, wallets[i].id)
    ensures r.Err? ==> r.error == NotFound(WalletNotFound)
  {
    match FindWalletByUser(wallets, userId)
    case None => Err(NotFound(WalletNotFound))
    case Some(i) => Ok(History(txns, wallets[i].id))
  }

  // ---------------------------------------------------------------- service

  class WalletService {
    const db: Datastore
    const hmac: WebhookPayload -> string

    constructor (db: Datastore, hmac: WebhookPayload -> string)
      ensures this.db == db && this.hmac == hmac
    {
      this.db := db;
      this.hmac := hmac;
    }

    method InitializeDeposit(userId: UserId, amount: Kobo, refBytes: RefDraw, now: Time,
                             processor: PaystackInit -> PaystackReply) returns (r: Result<DepositLink>)
      requires db.Valid()
      modifies db`txns
      ensures db.Valid()
      ensures var o := DepositStep(db.users, db.wallets, old(db.txns), userId, amount, refBytes, now, processor);
        db.txns == o.txns && r == o.result
    {
      DepositPreservesIntegrity(db.users, db.wallets, db.txns, userId, amount, refBytes, now, processor);
      if amount <= 0 {
        return Err(BadRequest(AmountNotPositive));
      }
      if amount < MinDeposit {
        return Err(BadRequest(BelowMinimum));
      }
      var found := FindWalletByUser(db.wallets, userId);
      if found.None? {
        return Err(NotFound(WalletNotFound));
      }
      var wallet := db.wallets[found.value];
      var reference := GenerateReference(refBytes);
      if HasReference(db.txns, reference) {
        return Err(Internal(UniqueViolation));
      }
      db.txns := db.txns + [Transaction(reference, Deposit, amount, Pending, None, None, wallet.id, now)];
      var reply := processor(PaystackInit(OwnerEmail(db.users, wallet), amount, reference));
      match reply
      case Initialized(url, code) =>
        r := Ok(DepositLink(reference, url, code));
      case Declined(message, details) =>
        r := Err(PaymentInitFailed(FailureMessage(message), details));
    }

    method HandleWebhook(payload: WebhookPayload, signature: string) returns (r: Result<bool>)
      requires db.Valid()
      modifies db`wallets, db`txns
      ensures db.Valid()
      ensures var o := WebhookStep(old(db.wallets), old(db.txns), payload, signature, hmac);
        db.wallets == o.wallets && db.txns == o.txns && r == o.result
      ensures old(Solvent(db.wallets)) && payload.data.amount >= 0 ==> Solvent(db.wallets)
    {
      WebhookPreservesIntegrity(db.users, db.wallets, db.txns, payload, signature, hmac);
      if hmac(payload) != signature {
        return Err(BadRequest(InvalidSignature));
      }
      if payload.event != ChargeSuccess {
        return Ok(true);
      }
      var found := FindTxnByReference(db.txns, payload.data.reference);
      if found.None? {
        return Ok(true);
      }
      var i := found.value;
      var txn := db.txns[i];
      if txn.status == Success {
        return Ok(true);
      }
      if txn.walletId >= |db.wallets| {
        return Err(Internal(MissingWallet));
      }
      // one unit of work: the status and the balance are saved together
      db.txns := db.txns[i := txn.(status := Success)];
      var wallet := db.wallets[txn.walletId];
      db.wallets := db.wallets[txn.walletId := wallet.(balance := wallet.balance + payload.data.amount)];
      r := Ok(true);
    }

    method Transfer(userId: UserId, recipientWalletNumber: string, amount: Kobo,
                    outBytes: RefDraw, inBytes: RefDraw, now: Time) returns (r: Result<TransferAck>)
      requires db.Valid()
      modifies db`wallets, db`txns
      ensures db.Valid()
      ensures var o := TransferStep(old(db.wallets), old(db.txns), userId, recipientWalletNumber, amount,
                                    outBytes, inBytes, now);
        db.wallets == o.wallets && db.txns == o.txns && r == o.result
      ensures old(Solvent(db.wallets)) ==> Solvent(db.wallets)
    {
      TransferKeepsStore(db.users, db.wallets, db.txns, db.apiKeys, userId, recipientWalletNumber, amount,
                         outBytes, inBytes, now);
      var outRef, inRef := GenerateReference(outBytes), GenerateReference(inBytes);
      ghost var o := TransferStep(db.wallets, db.txns, userId, recipientWalletNumber, amount, outBytes, inBytes, now);
      if amount <= 0 {
        return Err(BadRequest(InvalidAmount));
      }
      var s := FindWalletByUser(db.wallets, userId);
      if s.None? {
        return Err(NotFound(SenderWalletNotFound));
      }
      var sender := db.wallets[s.value];
      if sender.balance < amount {
        return Err(InsufficientBalance(sender.balance, amount));
      }
      var t := FindWalletByNumber(db.wallets, recipientWalletNumber);
      if t.None? {
        return Err(NotFound(RecipientNotFound));
      }
      var recipient := db.wallets[t.value];
      if sender.id == recipient.id {
        return Err(BadRequest(SelfTransfer));
      }
      if outRef == inRef || HasReference(db.txns, outRef) || HasReference(db.txns, inRef) {
        return Err(Internal(UniqueViolation));
      }
      TransferSucceeds(db.users, db.wallets, db.txns, userId, recipientWalletNumber, amount, outBytes, inBytes, now,
                       s.value, t.value);
      var debit := Transaction(outRef, TransferOut, amount, Success, Some(recipientWalletNumber), None, sender.id, now);
      var credit := Transaction(inRef, TransferIn, amount, Success, None, Some(sender.walletNumber), recipient.id, now);
      // one unit of work: debit, credit, and the two records, saved together
      db.wallets, db.txns := Move(db.wallets, s.value, t.value, amount), db.txns + [debit, credit];
      assert db.wallets == o.wallets && db.txns == o.txns;
      r := Ok(Completed);
    }
  }
}
