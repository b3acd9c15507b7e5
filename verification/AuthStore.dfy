/**
 The rows behind the auth module (internal/modules/auth/domain.go,
 repository_mysql.go and repository_mysql_secrets.go): accounts, and one
 verification code and one reset token per account.

 Every issued secret carries a serial number of the model's own, so that two
 codes with the same six digits are still two codes.
 */
module AuthStore {
  import opened Wrappers
  import opened Activity
  import opened Text

  type AccountId = nat

  const MIN_PASSWORD_LENGTH := 8
  const MAX_PASSWORD_LENGTH := 72

  datatype AuthError =
    | InvalidEmail
    | WeakPassword
    | EmailAlreadyExists
    | InvalidCredentials
    | EmailNotVerified
    | EmailAlreadyVerified
    | InvalidVerificationCode
    | InvalidResetToken
    | UserNotFound

  datatype Policy = Policy(requireVerifiedEmail: bool, codeTtl: int, maxAttempts: int, resetTtl: int) {
    /** Fills in what a zero policy would leave unusable; seconds throughout. */
    function WithDefaults(): (r: Policy)
      ensures r.codeTtl > 0 && r.maxAttempts > 0 && r.resetTtl > 0
      ensures r.requireVerifiedEmail == requireVerifiedEmail
      ensures r.codeTtl == codeTtl || (codeTtl <= 0 && r.codeTtl == 900)
      ensures r.maxAttempts == maxAttempts || (maxAttempts <= 0 && r.maxAttempts == 5)
      ensures r.resetTtl == resetTtl || (resetTtl <= 0 && r.resetTtl == 3600)
    {
      Policy(requireVerifiedEmail,
             if codeTtl <= 0 then 15 * 60 else codeTtl,
             if maxAttempts <= 0 then 5 else maxAttempts,
             if resetTtl <= 0 then 3600 else resetTtl)
    }
  }

  datatype User = User(email: string, passwordHash: string, verifiedAt: Option<int>, offset: int, counters: Counters) {
    predicate EmailVerified() {
      verifiedAt.Some?
    }

    /** The account after its address was confirmed at an instant, which counts as activity. */
    function Confirmed(at: int): User {
      this.(verifiedAt := Some(at), counters := Touch(counters, DayIn(at, offset)))
    }
  }

  datatype CodeRow = CodeRow(serial: nat, hash: string, attempts: nat, expiresAt: int, consumedAt: Option<int>) {
    predicate Usable(now: int, maxAttempts: int) {
      consumedAt.None? && now < expiresAt && attempts < maxAttempts
    }

    function Missed(): CodeRow {
      this.(attempts := attempts + 1)
    }

    function Consumed(at: int): CodeRow {
      if consumedAt.None? then this.(consumedAt := Some(at)) else this
    }
  }

  datatype ResetRow = ResetRow(serial: nat, hash: string, expiresAt: int, consumedAt: Option<int>) {
    predicate Usable(now: int) {
      consumedAt.None? && now < expiresAt
    }

    function Consumed(at: int): ResetRow {
      if consumedAt.None? then this.(consumedAt := Some(at)) else this
    }
  }

  // ---- What the use cases make of the rows, one request at a time or interleaved ----

  /** The right code was presented: the address is confirmed, which counts as activity. */
  function WithConfirmed(users: map<AccountId, User>, id: AccountId, at: int): map<AccountId, User>
    requires id in users
  {
    users[id := users[id].Confirmed(at)]
  }

  function WithSpentCode(codes: map<AccountId, CodeRow>, id: AccountId, at: int): map<AccountId, CodeRow>
    requires id in codes
  {
    codes[id := codes[id].Consumed(at)]
  }

  /** A wrong one was. */
  function WithMiss(codes: map<AccountId, CodeRow>, id: AccountId): map<AccountId, CodeRow>
    requires id in codes
  {
    codes[id := codes[id].Missed()]
  }

  /** A token was redeemed: a new password, and the address is confirmed. */
  function WithPassword(users: map<AccountId, User>, id: AccountId, newHash: string, at: int): map<AccountId, User>
    requires id in users
  {
    users[id := users[id].(passwordHash := newHash, verifiedAt := Some(at))]
  }

  function WithSpentReset(resets: map<AccountId, ResetRow>, id: AccountId, at: int): map<AccountId, ResetRow>
    requires id in resets
  {
    resets[id := resets[id].Consumed(at)]
  }

  /** checkPasswordLength: both bounds count bytes. */
  predicate PasswordIsAcceptable(password: string) {
    MIN_PASSWORD_LENGTH <= ByteLength(password) <= MAX_PASSWORD_LENGTH
  }

  /** The documented policy: the lower bound counts characters. */
  predicate PasswordIsDocumented(password: string) {
    MIN_PASSWORD_LENGTH <= |password| && ByteLength(password) <= MAX_PASSWORD_LENGTH
  }

  /** The code accepts more than the documentation exactly on short passwords of wide characters. */
  lemma WhereThePasswordPolicyDiffers(password: string)
    ensures PasswordIsAcceptable(password) == PasswordIsDocumented(password) <==>
            !(|password| < 8 <= ByteLength(password))
    ensures PasswordIsDocumented(password) ==> PasswordIsAcceptable(password)
  {
    assert |password| < 8 ==> ByteLength(password) <= 32;
  }

  /** Three kana are nine bytes: accepted, although documented as too short. */
  lemma ThreeKanaAreAPassword()
    ensures PasswordIsAcceptable("\U{3042}\U{3044}\U{3046}") && !PasswordIsDocumented("\U{3042}\U{3044}\U{3046}")
  {
    var password := "\U{3042}\U{3044}\U{3046}";
    assert password[1..][1..] == "\U{3046}" && password[1..][1..][1..] == "";
    assert ByteLength(password[1..][1..]) == 3;
  }

  /** The next AUTO_INCREMENT value: an id no account has. */
  method NewId(taken: set<AccountId>) returns (id: AccountId)
    ensures id !in taken
  {
    id := 0;
    var pending := taken;
    while pending != {}
      invariant pending <= taken
      invariant forall other :: other in taken ==> other in pending || other < id
      decreases |pending|
    {
      var other :| other in pending;
      if other >= id {
        id := other + 1;
      }
      pending := pending - {other};
    }
  }

  /** The three tables; the account is the key of each. */
  class AuthRepository {
    var users: map<AccountId, User>
    var codes: map<AccountId, CodeRow>
    var resets: map<AccountId, ResetRow>
    var nextSerial: nat

    /** The unique indexes on the email and on the token hash, and the foreign keys. */
    ghost predicate Valid()
      reads this
    {
      && (forall a, b :: a in users && b in users && users[a].email == users[b].email ==> a == b)
      && (forall a, b :: a in resets && b in resets && resets[a].hash == resets[b].hash ==> a == b)
      && codes.Keys <= users.Keys && resets.Keys <= users.Keys
    }

    constructor ()
      ensures Valid() && users == map[] && codes == map[] && resets == map[]
    {
      users, codes, resets, nextSerial := map[], map[], map[], 0;
    }

    /** The account with this address, if there is one. */
    method FindByEmail(email: string) returns (found: Option<AccountId>)
      ensures found.Some? ==> found.value in users && users[found.value].email == email
      ensures found.None? ==> forall id :: id in users ==> users[id].email != email
    {
      if id :| id in users && users[id].email == email {
        return Some(id);
      }
      return None;
    }

    method Create(user: User) returns (created: Result<AccountId, AuthError>)
      requires Valid()
      modifies this`users
      ensures Valid()
      ensures created.Ok? <==> forall id :: id in old(users) ==> old(users)[id].email != user.email
      ensures created.Ok? ==> created.value !in old(users) && users == old(users)[created.value := user]
      ensures created.Err? ==> created.error == EmailAlreadyExists && users == old(users)
    {
      if id :| id in users && users[id].email == user.email {
        return Err(EmailAlreadyExists);
      }
      var id := NewId(users.Keys);
      users := users[id := user];
      return Ok(id);
    }

    method TouchActivity(id: AccountId, day: int)
      requires Valid() && id in users
      modifies this`users
      ensures Valid()
      ensures users == old(users)[id := old(users)[id].(counters := Touch(old(users)[id].counters, day))]
    {
      var row := new ActivityRow.From(users[id].counters);
      row.TouchActivity(day);
      users := users[id := users[id].(counters := Counters(row.last, row.distinct, row.streak))];
    }

    /** An UPDATE that changes nothing affects no row, which its caller takes for a missing account. */
    method MarkEmailVerified(id: AccountId, at: int) returns (updated: Result<(), AuthError>)
      requires Valid() && id in users
      modifies this`users
      ensures Valid() && users == old(users)[id := old(users)[id].(verifiedAt := Some(at))]
      ensures updated == if old(users)[id].verifiedAt == Some(at) then Err(UserNotFound) else Ok(())
    {
      var affected := users[id].verifiedAt != Some(at);
      users := users[id := users[id].(verifiedAt := Some(at))];
      updated := if affected then Ok(()) else Err(UserNotFound);
    }

    method UpdatePassword(id: AccountId, passwordHash: string) returns (updated: Result<(), AuthError>)
      requires Valid() && id in users
      modifies this`users
      ensures Valid() && users == old(users)[id := old(users)[id].(passwordHash := passwordHash)]
      ensures updated == if old(users)[id].passwordHash == passwordHash then Err(UserNotFound) else Ok(())
    {
      var affected := users[id].passwordHash != passwordHash;
      users := users[id := users[id].(passwordHash := passwordHash)];
      updated := if affected then Ok(()) else Err(UserNotFound);
    }

    /** Replaces any previous code and its counter. */
    method PutVerification(id: AccountId, hash: string, expiresAt: int)
      requires Valid() && id in users
      modifies this`codes, this`nextSerial
      ensures Valid() && nextSerial == old(nextSerial) + 1
      ensures codes == old(codes)[id := CodeRow(old(nextSerial), hash, 0, expiresAt, None)]
    {
      codes := codes[id := CodeRow(nextSerial, hash, 0, expiresAt, None)];
      nextSerial := nextSerial + 1;
    }

    method RecordVerificationAttempt(id: AccountId)
      requires Valid()
      modifies this`codes
      ensures Valid()
      ensures codes == if id in old(codes) then old(codes)[id := old(codes)[id].Missed()] else old(codes)
    {
      if id in codes {
        codes := codes[id := codes[id].Missed()];
      }
    }

    method ConsumeVerification(id: AccountId, at: int)
      requires Valid()
      modifies this`codes
      ensures Valid()
      ensures codes == if id in old(codes) then old(codes)[id := old(codes)[id].Consumed(at)] else old(codes)
    {
      if id in codes {
        codes := codes[id := codes[id].Consumed(at)];
      }
    }

    /** Another account's row has this hash already. */
    ghost predicate HeldByAnother(id: AccountId, other: AccountId, hash: string)
      reads this
    {
      other in resets && other != id && resets[other].hash == hash
    }

    /**
     The row that a new token is stored in: the account's own, unless the hash
     is another account's, because the unique index on it then decides.
     */
    ghost predicate Renews(id: AccountId, row: AccountId, hash: string)
      reads this
    {
      if exists other :: HeldByAnother(id, other, hash) then HeldByAnother(id, row, hash) else row == id
    }

    /** Replaces any previous token in that row. */
    method PutReset(id: AccountId, hash: string, expiresAt: int)
      requires Valid() && id in users
      modifies this`resets, this`nextSerial
      ensures Valid() && nextSerial == old(nextSerial) + 1
      ensures exists row :: old(Renews(id, row, hash)) &&
                            resets == old(resets)[row := ResetRow(old(nextSerial), hash, expiresAt, None)]
    {
      var row := id;
      if other :| other in resets && other != id && resets[other].hash == hash {
        assert HeldByAnother(id, other, hash);
        row := other;
      }
      assert Renews(id, row, hash);
      resets := resets[row := ResetRow(nextSerial, hash, expiresAt, None)];
      nextSerial := nextSerial + 1;
    }

    method FindResetByHash(hash: string) returns (found: Option<AccountId>)
      ensures found.Some? ==> found.value in resets && resets[found.value].hash == hash
      ensures found.None? ==> forall id :: id in resets ==> resets[id].hash != hash
    {
      if id :| id in resets && resets[id].hash == hash {
        return Some(id);
      }
      return None;
    }

    method ConsumeReset(id: AccountId, at: int)
      requires Valid()
      modifies this`resets
      ensures Valid()
      ensures resets == if id in old(resets) then old(resets)[id := old(resets)[id].Consumed(at)] else old(resets)
    {
      if id in resets {
        resets := resets[id := resets[id].Consumed(at)];
      }
    }
  }
}
