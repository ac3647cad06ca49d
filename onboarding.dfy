/** Signing in with Google (AuthService.validateGoogleUser): find the user by
    email, or create the user and then a zero-balance wallet with a fresh
    13-digit wallet number. The two inserts are separate writes. */
module Onboarding {
  import opened Entities
  import opened Encoding
  import opened Store

  const WalletNumberPrefix: string := "456"
  const MinDraw: nat := 1000000000
  const MaxDraw: nat := 9999999999

  datatype GoogleProfile = GoogleProfile(email: string, firstName: Option<string>, lastName: Option<string>,
                                         picture: Option<string>)

  /** "456" followed by the decimal form of a ten-digit draw. */
  function GenerateWalletNumber(draw: nat): (n: string)
    requires MinDraw <= draw <= MaxDraw
    ensures |n| == 13 && n[..3] == WalletNumberPrefix && IsDecimalString(n)
    ensures DecimalValue(n[3..]) == draw
  {
    Pow10Ten();
    DecimalLength(draw, 10);
    DecimalRoundTrip(draw);
    var n := WalletNumberPrefix + Decimal(draw);
    assert n[3..] == Decimal(draw);
    n
  }

  lemma Pow10Ten()
    ensures Pow10(9) == MinDraw && Pow10(10) == MaxDraw + 1
  {
    assert Pow10(3) == 1000;
    assert Pow10(6) == 1000 * Pow10(3);
    assert Pow10(9) == 1000 * Pow10(6);
  }

  /** Distinct draws give distinct wallet numbers. */
  lemma WalletNumberInjective(a: nat, b: nat)
    requires MinDraw <= a <= MaxDraw && MinDraw <= b <= MaxDraw
    requires GenerateWalletNumber(a) == GenerateWalletNumber(b)
    ensures a == b
  {
  }

  datatype OnboardOutcome = OnboardOutcome(users: seq<User>, wallets: seq<Wallet>, result: Result<User>)

  function NewUser(id: UserId, profile: GoogleProfile, now: Time): User {
    User(id, profile.email, None, profile.firstName, profile.lastName, profile.picture, true, now)
  }

  function OnboardStep(users: seq<User>, wallets: seq<Wallet>, profile: GoogleProfile, draw: nat, now: Time): (o: OnboardOutcome)
    requires MinDraw <= draw <= MaxDraw
    ensures users <= o.users && |o.users| <= |users| + 1
    ensures wallets <= o.wallets && |o.wallets| <= |wallets| + 1
    ensures |o.wallets| == |wallets| + 1 ==> |o.users| == |users| + 1 && o.wallets[|wallets|].userId == |users|
    ensures o.result.Ok? ==> o.result.value.email == profile.email
  {
    match FindUserByEmail(users, profile.email)
    case Some(i) => OnboardOutcome(users, wallets, Ok(users[i]))
    case None =>
      var user := NewUser(|users|, profile, now);
      var number := GenerateWalletNumber(draw);
      if HasWalletNumber(wallets, number) || FindWalletByUser(wallets, user.id).Some? then
        OnboardOutcome(users + [user], wallets, Err(Internal(UniqueViolation)))
      else
        OnboardOutcome(users + [user], wallets + [Wallet(|wallets|, number, 0, user.id, now)], Ok(user))
  }

  /** A known email returns the stored user and creates nothing. */
  lemma OnboardKnownEmail(users: seq<User>, wallets: seq<Wallet>, profile: GoogleProfile, draw: nat, now: Time, i: nat)
    requires MinDraw <= draw <= MaxDraw
    requires UsersOk(users) && i < |users| && users[i].email == profile.email
    ensures OnboardStep(users, wallets, profile, draw, now) == OnboardOutcome(users, wallets, Ok(users[i]))
  {
    var f := FindUserByEmail(users, profile.email);
    assert f.Some?;
  }

  /** A new email creates exactly one active user with the profile's fields
      and, unless the drawn number is taken, exactly one wallet of balance
      zero owned by that user; when the number is taken the user row stays
      and no wallet is created. */
  lemma OnboardNewEmail(users: seq<User>, wallets: seq<Wallet>, profile: GoogleProfile, draw: nat, now: Time)
    requires MinDraw <= draw <= MaxDraw
    requires WalletsOk(wallets, |users|)
    requires forall i :: 0 <= i < |users| ==> users[i].email != profile.email
    ensures var o := OnboardStep(users, wallets, profile, draw, now);
      var u := o.users[|users|];
      && o.users == users + [u]
      && u.id == |users| && u.email == profile.email && u.isActive && u.googleId.None?
      && u.firstName == profile.firstName && u.lastName == profile.lastName && u.picture == profile.picture
      && (o.result.Ok? <==> !HasWalletNumber(wallets, GenerateWalletNumber(draw)))
      && (o.result.Ok? ==>
            && o.result.value == u && |o.wallets| == |wallets| + 1 && o.wallets[..|wallets|] == wallets
            && o.wallets[|wallets|].balance == 0 && o.wallets[|wallets|].userId == u.id
            && o.wallets[|wallets|].walletNumber == GenerateWalletNumber(draw))
      && (o.result.Err? ==> o.wallets == wallets && o.result == Err(Internal(UniqueViolation)))
  {
    var o := OnboardStep(users, wallets, profile, draw, now);
    assert FindWalletByUser(wallets, |users|).None?;
    if o.result.Ok? {
      assert (wallets + [o.wallets[|wallets|]])[..|wallets|] == wallets;
    }
  }

  /** Signing in again with the same email creates nothing more and returns
      the same user, whatever number is drawn. */
  lemma OnboardTwice(users: seq<User>, wallets: seq<Wallet>, profile: GoogleProfile, draw: nat, draw': nat,
                     now: Time, now': Time)
    requires MinDraw <= draw <= MaxDraw && MinDraw <= draw' <= MaxDraw
    requires UsersOk(users)
    ensures var o := OnboardStep(users, wallets, profile, draw, now);
      var o' := OnboardStep(o.users, o.wallets, profile, draw', now');
      o'.users == o.users && o'.wallets == o.wallets && (o.result.Ok? ==> o'.result == o.result)
  {
    var o := OnboardStep(users, wallets, profile, draw, now);
    OnboardPreservesUsers(users, wallets, profile, draw, now);
    var i :| 0 <= i < |o.users| && o.users[i].email == profile.email
                                && (o.result.Ok? ==> o.users[i] == o.result.value);
    OnboardKnownEmail(o.users, o.wallets, profile, draw', now', i);
  }

  /** The user table keeps its ids and unique emails, and afterwards holds
      a user with the profile's email — the one returned on success. */
  lemma OnboardPreservesUsers(users: seq<User>, wallets: seq<Wallet>, profile: GoogleProfile, draw: nat, now: Time)
    requires MinDraw <= draw <= MaxDraw
    requires UsersOk(users)
    ensures var o := OnboardStep(users, wallets, profile, draw, now);
      && UsersOk(o.users)
      && exists i :: 0 <= i < |o.users| && o.users[i].email == profile.email
                     && (o.result.Ok? ==> o.users[i] == o.result.value)
  {
    var o := OnboardStep(users, wallets, profile, draw, now);
    var f := FindUserByEmail(users, profile.email);
    if f.Some? {
      assert o.users[f.value].email == profile.email;
    } else {
      assert o.users[|users|].email == profile.email;
    }
  }

  /** A new wallet starts at zero, so onboarding leaves the total of all
      balances as it was, keeps every balance non-negative, and keeps the
      wallet table's integrity. */
  lemma OnboardPreservesWallets(users: seq<User>, wallets: seq<Wallet>, profile: GoogleProfile, draw: nat, now: Time)
    requires MinDraw <= draw <= MaxDraw
    requires WalletsOk(wallets, |users|)
    ensures var o := OnboardStep(users, wallets, profile, draw, now);
      && WalletsOk(o.wallets, |o.users|) && Total(o.wallets) == Total(wallets)
      && (Solvent(wallets) ==> Solvent(o.wallets))
  {
    var o := OnboardStep(users, wallets, profile, draw, now);
    if o.wallets != wallets {
      var w := o.wallets[|wallets|];
      assert o.wallets == wallets + [w];
      TotalAppend(wallets, w);
      assert FindWalletByUser(wallets, w.userId).None?;
    }
  }

  /** Onboarding keeps the whole datastore's integrity: the new user adds no
      transaction and no key. */
  lemma OnboardKeepsStore(users: seq<User>, wallets: seq<Wallet>, txns: seq<Transaction>, apiKeys: seq<ApiKey>,
                          profile: GoogleProfile, draw: nat, now: Time)
    requires MinDraw <= draw <= MaxDraw
    requires StoreOk(users, wallets, txns, apiKeys)
    ensures var o := OnboardStep(users, wallets, profile, draw, now);
      StoreOk(o.users, o.wallets, txns, apiKeys)
  {
    var o := OnboardStep(users, wallets, profile, draw, now);
    OnboardPreservesUsers(users, wallets, profile, draw, now);
    OnboardPreservesWallets(users, wallets, profile, draw, now);
    assert |o.wallets| >= |wallets|;
    assert |o.users| >= |users|;
    assert forall i :: 0 <= i < |apiKeys| ==> apiKeys[i].userId < |o.users|;
  }

  class AuthService {
    const db: Datastore

    constructor (db: Datastore)
      ensures this.db == db
    {
      this.db := db;
    }

    /** `draw` is the random ten-digit number the wallet number is made from. */
    method ValidateGoogleUser(profile: GoogleProfile, draw: nat, now: Time) returns (r: Result<User>)
      requires MinDraw <= draw <= MaxDraw
      requires db.Valid()
      modifies db`users, db`wallets
      ensures db.Valid()
      ensures var o := OnboardStep(old(db.users), old(db.wallets), profile, draw, now);
        db.users == o.users && db.wallets == o.wallets && r == o.result
    {
      OnboardKeepsStore(db.users, db.wallets, db.txns, db.apiKeys, profile, draw, now);
      var found := FindUserByEmail(db.users, profile.email);
      if found.Some? {
        return Ok(db.users[found.value]);
      }
      var user := NewUser(|db.users|, profile, now);
      db.users := db.users + [user];
      var number := GenerateWalletNumber(draw);
      if HasWalletNumber(db.wallets, number) || FindWalletByUser(db.wallets, user.id).Some? {
        return Err(Internal(UniqueViolation));
      }
      db.wallets := db.wallets + [Wallet(|db.wallets|, number, 0, user.id, now)];
      return Ok(user);
    }
  }
}
