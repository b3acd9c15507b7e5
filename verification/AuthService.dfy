/**
 The use cases that handle secrets and sessions, one request at a time
 (internal/modules/auth/service.go, verification.go and password_reset.go).
 Each contract is a decision table over every input.
 */
module AuthService {
  import opened Wrappers
  import opened Activity
  import opened AuthStore
  import opened Text

  class Service {
    const repo: AuthRepository
    const policy: Policy
    /** SHA-256 of a secret, and bcrypt's comparison; both uninterpreted. */
    const hashSecret: string -> string
    const compare: (string, string) -> bool

    constructor (repo: AuthRepository, policy: Policy, hashSecret: string -> string, compare: (string, string) -> bool)
      ensures this.repo == repo && this.policy == policy.WithDefaults()
      ensures this.hashSecret == hashSecret && this.compare == compare
    {
      this.repo, this.policy := repo, policy.WithDefaults();
      this.hashSecret, this.compare := hashSecret, compare;
    }

    ghost predicate IsAccountOf(id: AccountId, address: Option<string>)
      reads repo
    {
      address.Some? && id in repo.users && repo.users[id].email == address.value
    }

    /** A guess that is compared: an unverified account whose current code is usable now. */
    ghost predicate MayGuess(id: AccountId, address: Option<string>, now: int)
      reads repo
    {
      && IsAccountOf(id, address) && !repo.users[id].EmailVerified()
      && id in repo.codes
      && var row := repo.codes[id];
         row.consumedAt.None? && now < row.expiresAt && row.attempts < policy.maxAttempts
    }

    /**
     address is None when the address is malformed. A session opens exactly
     for the current, usable code of an unverified account; a wrong guess
     against such a code costs one attempt; everything else changes nothing.
     */
    method VerifyEmail(address: Option<string>, code: string, now: int) returns (session: Result<AccountId, AuthError>)
      requires repo.Valid()
      modifies repo`users, repo`codes
      ensures repo.Valid()
      ensures session.Ok? <==>
              exists id :: old(MayGuess(id, address, now)) && old(repo.codes)[id].hash == hashSecret(code)
      ensures session.Ok? ==>
                var id := session.value;
                && old(MayGuess(id, address, now)) && old(repo.codes)[id].hash == hashSecret(code)
                && repo.codes == WithSpentCode(old(repo.codes), id, now)
                && repo.users == WithConfirmed(old(repo.users), id, now)
      ensures forall id :: old(MayGuess(id, address, now)) && old(repo.codes)[id].hash != hashSecret(code) ==>
                && session == Err(InvalidVerificationCode)
                && repo.codes == WithMiss(old(repo.codes), id)
                && repo.users == old(repo.users)
      ensures (forall id :: !old(MayGuess(id, address, now))) ==>
                && repo.codes == old(repo.codes) && repo.users == old(repo.users)
                && session == Err(if exists id :: old(IsAccountOf(id, address)) && old(repo.users)[id].EmailVerified()
                                  then EmailAlreadyVerified else InvalidVerificationCode)
    {
      if address.None? {
        return Err(InvalidVerificationCode);
      }
      var found := repo.FindByEmail(address.value);
      if found.None? {
        return Err(InvalidVerificationCode);
      }
      var id := found.value;
      assert IsAccountOf(id, address);
      if repo.users[id].EmailVerified() {
        return Err(EmailAlreadyVerified);
      }
      if id !in repo.codes || !repo.codes[id].Usable(now, policy.maxAttempts) {
        return Err(InvalidVerificationCode);
      }
      assert MayGuess(id, address, now);
      if repo.codes[id].hash != hashSecret(code) {
        repo.RecordVerificationAttempt(id);
        return Err(InvalidVerificationCode);
      }
      repo.ConsumeVerification(id, now);
      var marked := repo.MarkEmailVerified(id, now);
      assert marked.Ok?;
      repo.TouchActivity(id, DayIn(now, repo.users[id].offset));
      return Ok(id);
    }

    method IssueVerificationCode(id: AccountId, code: string, now: int)
      requires repo.Valid() && id in repo.users
      modifies repo`codes, repo`nextSerial
      ensures repo.Valid()
      ensures repo.codes == old(repo.codes)[id := CodeRow(old(repo.nextSerial), hashSecret(code), 0,
              now + policy.codeTtl, None)]
    {
      repo.PutVerification(id, hashSecret(code), now + policy.codeTtl);
    }

    /** Replaces the code of an unverified account; says nothing and does nothing otherwise. */
    method ResendVerification(address: Option<string>, code: string, now: int)
      requires repo.Valid()
      modifies repo`codes, repo`nextSerial
      ensures repo.Valid()
      ensures forall id :: old(IsAccountOf(id, address)) && !old(repo.users)[id].EmailVerified() ==>
                repo.codes ==
                old(repo.codes)[id := CodeRow(old(repo.nextSerial), hashSecret(code), 0, now + policy.codeTtl, None)]
      ensures (forall id :: old(IsAccountOf(id, address)) ==> old(repo.users)[id].EmailVerified()) ==>
                repo.codes == old(repo.codes)
    {
      if address.None? {
        return;
      }
      var found := repo.FindByEmail(address.value);
      if found.None? {
        return;
      }
      assert IsAccountOf(found.value, address);
      if repo.users[found.value].EmailVerified() {
        return;
      }
      IssueVerificationCode(found.value, code, now);
    }

    /** A reset token just issued. */
    function Fresh(serial: nat, token: string, now: int): ResetRow {
      ResetRow(serial, hashSecret(token), now + policy.resetTtl, None)
    }

    /** Replaces the reset token of an account, verified or not. */
    method ForgotPassword(address: Option<string>, token: string, now: int)
      requires repo.Valid()
      modifies repo`resets, repo`nextSerial
      ensures repo.Valid()
      ensures forall id :: old(IsAccountOf(id, address)) ==>
                exists row :: old(repo.Renews(id, row, hashSecret(token))) &&
                  repo.resets == old(repo.resets)[row := Fresh(old(repo.nextSerial), token, now)]
      ensures (forall id :: !old(IsAccountOf(id, address))) ==> repo.resets == old(repo.resets)
    {
      if address.None? {
        return;
      }
      var found := repo.FindByEmail(address.value);
      if found.None? {
        return;
      }
      assert IsAccountOf(found.value, address);
      repo.PutReset(found.value, hashSecret(token), now + policy.resetTtl);
    }

    /** The token is the current one of this account and still usable. */
    ghost predicate Redeems(id: AccountId, token: string, now: int)
      reads repo
    {
      && id in repo.resets && repo.resets[id].hash == hashSecret(token)
      && repo.resets[id].consumedAt.None? && now < repo.resets[id].expiresAt
    }

    /** The hash is not the stored one, which a fresh bcrypt salt makes certain in practice. */
    ghost predicate Rehashes(id: AccountId, newHash: string)
      reads repo
    {
      id in repo.users && repo.users[id].passwordHash != newHash
    }

    /**
     A redeemed token replaces one password, is spent, and confirms the
     address; a password of the wrong length is refused first and leaves the
     token as it was, and so does a hash that would change nothing.
     */
    method ResetPassword(token: string, newPassword: string, newHash: string, now: int)
      returns (outcome: Result<AccountId, AuthError>)
      requires repo.Valid()
      modifies repo`users, repo`resets
      ensures repo.Valid()
      ensures outcome.Ok? <==>
              8 <= ByteLength(newPassword) <= 72 &&
              exists id :: old(Redeems(id, token, now)) && old(Rehashes(id, newHash))
      ensures outcome.Ok? ==>
                var id := outcome.value;
                && old(Redeems(id, token, now)) && old(Rehashes(id, newHash))
                && repo.users == WithPassword(old(repo.users), id, newHash, now)
                && repo.resets == WithSpentReset(old(repo.resets), id, now)
                && forall later: int :: !Redeems(id, token, later)
      ensures outcome.Err? ==>
                && repo.users == old(repo.users) && repo.resets == old(repo.resets)
                && outcome.error == (if !(8 <= ByteLength(newPassword) <= 72) then WeakPassword
                                     else if exists id :: old(Redeems(id, token, now)) then UserNotFound
                                     else InvalidResetToken)
    {
      if !PasswordIsAcceptable(newPassword) {
        return Err(WeakPassword);
      }
      var found := repo.FindResetByHash(hashSecret(token));
      if found.None? {
        return Err(InvalidResetToken);
      }
      var id := found.value;
      if !repo.resets[id].Usable(now) {
        return Err(InvalidResetToken);
      }
      assert Redeems(id, token, now);
      var _ :- repo.UpdatePassword(id, newHash);
      assert old(Rehashes(id, newHash));
      repo.ConsumeReset(id, now);
      var _ := repo.MarkEmailVerified(id, now);
      return Ok(id);
    }

    /** A new account starts unverified, active on its UTC day, with a first code; the gate withholds the session. */
    method Register(address: Option<string>, password: string, passwordHash: string, code: string, now: int)
      returns (created: Result<AccountId, AuthError>, session: bool)
      requires repo.Valid()
      modifies repo
      ensures repo.Valid()
      ensures created.Ok? <==>
              address.Some? && 8 <= ByteLength(password) <= 72 && forall id :: !old(IsAccountOf(id, address))
      ensures session <==> created.Ok? && !policy.requireVerifiedEmail
      ensures created.Ok? ==>
                var id := created.value;
                && id !in old(repo.users)
                && repo.users == old(repo.users)[id := User(address.value, passwordHash, None, 0,
                    Touch(NEVER, UTCDay(now)))]
                && repo.codes ==
                   old(repo.codes)[id := CodeRow(old(repo.nextSerial), hashSecret(code), 0, now + policy.codeTtl, None)]
                && repo.resets == old(repo.resets)
      ensures created.Err? ==>
                && repo.users == old(repo.users) && repo.codes == old(repo.codes) && repo.resets == old(repo.resets)
                && created.error == (if address.None? then InvalidEmail
                                     else if !(8 <= ByteLength(password) <= 72) then WeakPassword
                                     else EmailAlreadyExists)
    {
      session := false;
      if address.None? {
        return Err(InvalidEmail), false;
      }
      if !PasswordIsAcceptable(password) {
        return Err(WeakPassword), false;
      }
      var found := repo.FindByEmail(address.value);
      if found.Some? {
        assert IsAccountOf(found.value, address);
        return Err(EmailAlreadyExists), false;
      }
      created := repo.Create(User(address.value, passwordHash, None, 0, Counters(Some(UTCDay(now)), 1, 1)));
      if created.Ok? {
        IssueVerificationCode(created.value, code, now);
        session := !policy.requireVerifiedEmail;
      }
    }

    /** Correct credentials open a session and count as activity, unless the gate is on and the address unconfirmed. */
    method Login(address: Option<string>, password: string, now: int) returns (session: Result<AccountId, AuthError>)
      requires repo.Valid()
      modifies repo`users
      ensures repo.Valid()
      ensures session.Ok? <==>
              exists id :: old(IsAccountOf(id, address)) && compare(old(repo.users)[id].passwordHash, password) &&
                           (policy.requireVerifiedEmail ==> old(repo.users)[id].EmailVerified())
      ensures session.Ok? ==>
                var id := session.value;
                && old(IsAccountOf(id, address))
                && var user := old(repo.users)[id];
                && compare(user.passwordHash, password)
                && (policy.requireVerifiedEmail ==> user.EmailVerified())
                && repo.users == old(repo.users)[id := user.(counters := Touch(user.counters, DayIn(now, user.offset)))]
      ensures session.Err? ==> repo.users == old(repo.users)
      ensures session == Err(EmailNotVerified) <==>
              policy.requireVerifiedEmail &&
              exists id :: old(IsAccountOf(id, address)) && compare(old(repo.users)[id].passwordHash, password) &&
                           !old(repo.users)[id].EmailVerified()
      ensures session.Err? ==> session.error in {EmailNotVerified, InvalidCredentials}
    {
      if address.None? {
        return Err(InvalidCredentials);
      }
      var found := repo.FindByEmail(address.value);
      if found.None? {
        return Err(InvalidCredentials);
      }
      var id := found.value;
      assert IsAccountOf(id, address);
      if !compare(repo.users[id].passwordHash, password) {
        return Err(InvalidCredentials);
      }
      if policy.requireVerifiedEmail && !repo.users[id].EmailVerified() {
        return Err(EmailNotVerified);
      }
      repo.TouchActivity(id, DayIn(now, repo.users[id].offset));
      return Ok(id);
    }
  }
}
