/**
 The interleaved machine contains the one-request-at-a-time service: from any
 reachable world a request that meets no other ends with the tables that
 AuthService's contracts state, and with the session or none. The safety of
 every interleaving therefore covers those requests too.
 */
module AuthSequential {
  import opened Wrappers
  import opened Activity
  import opened AuthStore
  import opened AuthProtocol
  import opened AuthRuns
  import opened Text

  /** The request is over: these are the tables, this is what it noted, and nothing else changed. */
  ghost predicate Ends(env: Env, w: World, next: World, tables: Tables, notes: multiset<Note>) {
    Reachable(env, next) && next == World(w.now, tables, w.flows, w.log + notes)
  }

  lemma NotesAddUp(log: multiset<Note>, some: multiset<Note>, more: multiset<Note>)
    ensures log + some + more == log + (some + more)
  {
  }

  // ---- Verifying an address ----

  /** A right and usable code: it is spent, and the account is confirmed and active. */
  function AfterHit(t: Tables, account: AccountId, at: int): Tables
    requires account in t.users && account in t.codes
  {
    t.(users := WithConfirmed(t.users, account, at), codes := WithSpentCode(t.codes, account, at))
  }

  /** What a hit notes after its comparison: the spent code, the confirmation, and one session. */
  function SpendNotes(k: Secret, code: string, at: int): multiset<Note> {
    multiset{CodeSpent(k)} + multiset{ConfirmedByCode(k.account, k, code, at)} +
    multiset{CodeSession(k), TokenIssued(k.account, true)}
  }

  /** What a whole hit notes: the accepted row as well. */
  function HitNotes(k: Secret, code: string, at: int, row: CodeRow): multiset<Note> {
    multiset{CodeAccepted(k, code, at, row)} + SpendNotes(k, code, at)
  }

  function AfterMiss(t: Tables, account: AccountId): Tables
    requires account in t.codes
  {
    t.(codes := WithMiss(t.codes, account))
  }

  lemma HitStatements(t: Tables, account: AccountId, at: int)
    requires account in t.users && account in t.codes
    ensures Execute(Execute(Execute(t, SpendCode(account, at)), ConfirmUser(account, at)),
                    TouchUser(account, DayIn(at, t.users[account].offset))) == AfterHit(t, account, at)
  {
    var confirmed := t.users[account].(verifiedAt := Some(at));
    assert t.users[account := confirmed][account := t.users[account].Confirmed(at)] ==
           t.users[account := t.users[account].Confirmed(at)];
  }

  lemma LoadsTheCode(env: Env, w: World, r: nat, account: AccountId, code: string) returns (next: World)
    requires Reachable(env, w) && r !in w.flows && account in w.tables.users && account in w.tables.codes
    requires !w.tables.Verified(account) && Tally(w.flows, Verifying(account)) < env.verifyLimit
    ensures Reachable(env, next)
    ensures next == World(w.now, w.tables, w.flows[r := VerifyLoaded(account, code, w.tables.codes[account])], w.log)
  {
    var found := Begin(env, w, StartVerify(r, account, code), VerifyFound(account, code));
    next := Advance(env, found, LoadCode(r), w.flows, VerifyFound(account, code),
                    Goes(VerifyLoaded(account, code, w.tables.codes[account])));
    assert w.log + multiset{} == w.log;
  }

  lemma ConsumesAndMarks(env: Env, w: World, r: nat, flows: map<nat, Flow>, k: Secret, code: string, at: int)
    returns (next: World)
    requires Reachable(env, w) && r !in flows && w.flows == flows[r := VerifyHit(k, code, at)]
    requires w.tables.Stamps(k.account, at)
    ensures Reachable(env, next)
    ensures next == World(w.now, Execute(Execute(w.tables, SpendCode(k.account, at)), ConfirmUser(k.account, at)),
                          flows[r := VerifyMarked(k, code, at, w.tables.OffsetOf(k.account))],
                          w.log + multiset{CodeSpent(k)} + multiset{ConfirmedByCode(k.account, k, code, at)})
  {
    var consumed := Advance(env, w, ConsumeCode(r), flows, VerifyHit(k, code, at),
                            Plan(Some(VerifyConsumed(k, code, at)), SpendCode(k.account, at), multiset{CodeSpent(k)}));
    next := Advance(env, consumed, MarkByCode(r), flows, VerifyConsumed(k, code, at),
                    Plan(Some(VerifyMarked(k, code, at, w.tables.OffsetOf(k.account))), ConfirmUser(k.account, at),
                         multiset{ConfirmedByCode(k.account, k, code, at)}));
  }

  lemma TouchesAndOpens(env: Env, w: World, r: nat, flows: map<nat, Flow>, flow: Flow) returns (next: World)
    requires Reachable(env, w) && r !in flows && flow.VerifyMarked? && w.flows == flows[r := flow]
    ensures Reachable(env, next)
    ensures var k := flow.secret;
            var touched := Execute(w.tables, TouchUser(k.account, DayIn(flow.at, flow.offset)));
            next == World(w.now, touched, flows,
                          w.log + multiset{CodeSession(k), TokenIssued(k.account, touched.Verified(k.account))})
  {
    var k := flow.secret;
    var touched := Advance(env, w, TouchByCode(r), flows, flow,
                           Plan(Some(flow), TouchUser(k.account, DayIn(flow.at, flow.offset)), multiset{}));
    assert w.log + multiset{} == w.log;
    next := Advance(env, touched, OpenByCode(r), flows, flow,
                    Plan(None, NoStatement,
                         multiset{CodeSession(k), TokenIssued(k.account, touched.tables.Verified(k.account))}));
  }

  lemma SpendsTheCode(env: Env, w: World, r: nat, flows: map<nat, Flow>, k: Secret, code: string, at: int)
    returns (next: World)
    requires Reachable(env, w) && r !in flows && w.flows == flows[r := VerifyHit(k, code, at)]
    requires w.tables.Stamps(k.account, at) && k.account in w.tables.codes
    ensures Reachable(env, next)
    ensures next == World(w.now, AfterHit(w.tables, k.account, at), flows, w.log + SpendNotes(k, code, at))
  {
    var marked := ConsumesAndMarks(env, w, r, flows, k, code, at);
    next := TouchesAndOpens(env, marked, r, flows, VerifyMarked(k, code, at, w.tables.OffsetOf(k.account)));
    HitStatements(w.tables, k.account, at);
    assert AfterHit(w.tables, k.account, at).Verified(k.account);
    assert next.log == w.log + SpendNotes(k, code, at);
  }

  /**
   VerifyEmail undisturbed: the decision table of AuthService, reached step by
   step. A session opens for the right code while it is usable, and only then.
   */
  lemma VerifyEmailIsARun(env: Env, w: World, r: nat, account: AccountId, code: string) returns (next: World)
    requires Reachable(env, w) && r !in w.flows && account in w.tables.users && account in w.tables.codes
    requires !w.tables.Verified(account) && Tally(w.flows, Verifying(account)) < env.verifyLimit
    ensures var row := w.tables.codes[account];
            var k := Secret(account, row.serial);
            if row.consumedAt.Some? || row.expiresAt <= w.now || env.policy.maxAttempts <= row.attempts then
              Ends(env, w, next, w.tables, multiset{})
            else if row.hash == env.hashSecret(code) then
              Ends(env, w, next, AfterHit(w.tables, account, w.now), HitNotes(k, code, w.now, row))
            else Ends(env, w, next, AfterMiss(w.tables, account), multiset{WrongGuess(k)})
  {
    var row := w.tables.codes[account];
    var k := Secret(account, row.serial);
    var flow := VerifyLoaded(account, code, row);
    var loaded := LoadsTheCode(env, w, r, account, code);
    if !row.Usable(w.now, env.policy.maxAttempts) {
      next := Advance(env, loaded, CheckCode(r), w.flows, flow, ENDS);
    } else if row.hash == env.hashSecret(code) {
      var accepted := multiset{CodeAccepted(k, code, w.now, row)};
      var hit := Advance(env, loaded, CheckCode(r), w.flows, flow,
                         Plan(Some(VerifyHit(k, code, w.now)), NoStatement, accepted));
      next := SpendsTheCode(env, hit, r, w.flows, k, code, w.now);
      NotesAddUp(w.log, accepted, SpendNotes(k, code, w.now));
    } else {
      var missed := Advance(env, loaded, CheckCode(r), w.flows, flow,
                            Plan(Some(VerifyMissed(k)), NoStatement, multiset{WrongGuess(k)}));
      next := Advance(env, missed, RecordMiss(r), w.flows, VerifyMissed(k), Plan(None, MissCode(account), multiset{}));
      assert next.log == w.log + multiset{WrongGuess(k)};
    }
  }

  // ---- Resetting a password ----

  /** A redeemed token: the password is replaced, the token spent, the address confirmed. */
  function AfterReset(t: Tables, account: AccountId, newHash: string, at: int): Tables
    requires account in t.users && account in t.resets
  {
    t.(users := WithPassword(t.users, account, newHash, at), resets := WithSpentReset(t.resets, account, at))
  }

  /** What a reset notes after its check: the replacement and the confirmation. */
  function ReplaceNotes(k: Secret, token: string, at: int): multiset<Note> {
    multiset{PasswordReplaced(k)} + multiset{ConfirmedByReset(k.account, k, token, at)}
  }

  function ResetNotes(k: Secret, token: string, at: int, row: ResetRow): multiset<Note> {
    multiset{ResetAccepted(k, token, at, row)} + ReplaceNotes(k, token, at)
  }

  lemma ResetStatements(t: Tables, account: AccountId, newHash: string, at: int)
    requires account in t.users && account in t.resets
    ensures Execute(Execute(Execute(t, SetPassword(account, newHash)), SpendReset(account, at)),
            ConfirmUser(account, at)) ==
            AfterReset(t, account, newHash, at)
  {
    var replaced := t.users[account].(passwordHash := newHash);
    assert t.users[account := replaced][account := replaced.(verifiedAt := Some(at))] ==
           t.users[account := replaced.(verifiedAt := Some(at))];
  }

  lemma ReplacesAndSpends(env: Env, w: World, r: nat, flows: map<nat, Flow>, k: Secret, token: string, newHash: string)
    returns (next: World)
    requires Reachable(env, w) && r !in flows && w.flows == flows[r := ResetUsable(k, token, newHash, w.now)]
    requires w.tables.Rehashes(k.account, newHash)
    ensures Reachable(env, next)
    ensures next == World(w.now,
            Execute(Execute(w.tables, SetPassword(k.account, newHash)), SpendReset(k.account, w.now)),
                          flows[r := ResetConsumed(k, token, w.now)], w.log + multiset{PasswordReplaced(k)})
  {
    var at := w.now;
    var replaced := Advance(env, w, ReplacePassword(r), flows, ResetUsable(k, token, newHash, at),
                            Plan(Some(ResetReplaced(k, token, at)), SetPassword(k.account, newHash),
                                 multiset{PasswordReplaced(k)}));
    next := Advance(env, replaced, ConsumeReset(r), flows, ResetReplaced(k, token, at),
                    Plan(Some(ResetConsumed(k, token, at)), SpendReset(k.account, at), multiset{}));
    assert next.log == w.log + multiset{PasswordReplaced(k)};
  }

  lemma ConfirmsByReset(env: Env, w: World, r: nat, flows: map<nat, Flow>, k: Secret, token: string, at: int)
    returns (next: World)
    requires Reachable(env, w) && r !in flows && w.flows == flows[r := ResetConsumed(k, token, at)]
    ensures Reachable(env, next)
    ensures next == World(w.now, Execute(w.tables, ConfirmUser(k.account, at)), flows,
                          w.log + multiset{ConfirmedByReset(k.account, k, token, at)})
  {
    next := Advance(env, w, MarkByReset(r), flows, ResetConsumed(k, token, at),
                    Plan(None, ConfirmUser(k.account, at), multiset{ConfirmedByReset(k.account, k, token, at)}));
  }

  lemma SpendsTheToken(env: Env, w: World, r: nat, flows: map<nat, Flow>, k: Secret, token: string, newHash: string)
    returns (next: World)
    requires Reachable(env, w) && r !in flows && w.flows == flows[r := ResetUsable(k, token, newHash, w.now)]
    requires w.tables.Rehashes(k.account, newHash) && k.account in w.tables.resets
    ensures Reachable(env, next)
    ensures next == World(w.now, AfterReset(w.tables, k.account, newHash, w.now), flows,
                          w.log + ReplaceNotes(k, token, w.now))
  {
    var consumed := ReplacesAndSpends(env, w, r, flows, k, token, newHash);
    next := ConfirmsByReset(env, consumed, r, flows, k, token, w.now);
    ResetStatements(w.tables, k.account, newHash, w.now);
    NotesAddUp(w.log, multiset{PasswordReplaced(k)}, multiset{ConfirmedByReset(k.account, k, token, w.now)});
  }

  lemma RefusesTheHash(env: Env, w: World, r: nat, flows: map<nat, Flow>, flow: Flow) returns (next: World)
    requires Reachable(env, w) && r !in flows && flow.ResetUsable? && w.flows == flows[r := flow]
    requires !w.tables.Rehashes(flow.secret.account, flow.newHash)
    ensures Reachable(env, next) && next == World(w.now, w.tables, flows, w.log)
  {
    next := Advance(env, w, ReplacePassword(r), flows, flow, ENDS);
    assert w.log + multiset{} == w.log;
  }

  /**
   ResetPassword undisturbed, for a password of an acceptable length and a token
   that is on file. A hash that would change nothing is refused after the check.
   */
  lemma ResetPasswordIsARun(env: Env, w: World, r: nat, account: AccountId, token: string, password: string,
                            newHash: string)
    returns (next: World)
    requires Reachable(env, w) && r !in w.flows && account in w.tables.users && account in w.tables.resets
    requires 8 <= ByteLength(password) <= 72 && w.tables.resets[account].hash == env.hashSecret(token)
    requires Tally(w.flows, Resetting(account)) < env.resetLimit
    ensures var row := w.tables.resets[account];
            var k := Secret(account, row.serial);
            if row.consumedAt.Some? || row.expiresAt <= w.now then Ends(env, w, next, w.tables, multiset{})
            else if w.tables.users[account].passwordHash != newHash then
              Ends(env, w, next, AfterReset(w.tables, account, newHash, w.now), ResetNotes(k, token, w.now, row))
            else Ends(env, w, next, w.tables, multiset{ResetAccepted(k, token, w.now, row)})
  {
    var row := w.tables.resets[account];
    var k := Secret(account, row.serial);
    var flow := ResetLoaded(account, token, row, newHash);
    var loaded := Begin(env, w, StartReset(r, account, token, password, newHash), flow);
    if !row.Usable(w.now) {
      next := Advance(env, loaded, CheckReset(r), w.flows, flow, ENDS);
    } else {
      var accepted := multiset{ResetAccepted(k, token, w.now, row)};
      var checked := ResetUsable(k, token, newHash, w.now);
      var usable := Advance(env, loaded, CheckReset(r), w.flows, flow, Plan(Some(checked), NoStatement, accepted));
      if w.tables.Rehashes(account, newHash) {
        next := SpendsTheToken(env, usable, r, w.flows, k, token, newHash);
        NotesAddUp(w.log, accepted, ReplaceNotes(k, token, w.now));
      } else {
        next := RefusesTheHash(env, usable, r, w.flows, checked);
      }
    }
  }

  // ---- The other use cases ----

  lemma TouchesAndLogsIn(env: Env, w: World, r: nat, flows: map<nat, Flow>, account: AccountId, offset: int)
    returns (next: World)
    requires Reachable(env, w) && r !in flows && w.flows == flows[r := LoginAllowed(account, offset)]
    ensures Reachable(env, next)
    ensures var touched := Execute(w.tables, TouchUser(account, DayIn(w.now, offset)));
            next == World(w.now, touched, flows, w.log + multiset{TokenIssued(account, touched.Verified(account))})
  {
    var touched := Advance(env, w, TouchByLogin(r), flows, LoginAllowed(account, offset),
                           Plan(Some(LoginRecorded(account)), TouchUser(account, DayIn(w.now, offset)), multiset{}));
    assert touched.log == w.log;
    next := Advance(env, touched, OpenByLogin(r), flows, LoginRecorded(account),
                    Plan(None, NoStatement, multiset{TokenIssued(account, touched.tables.Verified(account))}));
  }

  /** A login the gate lets through counts as activity and opens a session. */
  lemma LoginIsARun(env: Env, w: World, r: nat, account: AccountId, password: string) returns (next: World)
    requires Reachable(env, w) && r !in w.flows && account in w.tables.users
    requires env.compare(w.tables.users[account].passwordHash, password)
    requires env.policy.requireVerifiedEmail ==> w.tables.Verified(account)
    ensures var user := w.tables.users[account];
            Ends(env, w, next,
                 w.tables.(users := w.tables.users[account :=
                   user.(counters := Touch(user.counters, DayIn(w.now, user.offset)))]),
                 multiset{TokenIssued(account, w.tables.Verified(account))})
  {
    var offset := w.tables.OffsetOf(account);
    var found := Begin(env, w, StartLogin(r, account, password), LoginAllowed(account, offset));
    next := TouchesAndLogsIn(env, found, r, w.flows, account, offset);
  }

  /** A successful write to the progress document counts as activity of its account, and no more. */
  lemma RecordActivityIsARun(env: Env, w: World, r: nat, account: AccountId) returns (next: World)
    requires Reachable(env, w) && r !in w.flows && account in w.tables.users
    ensures var user := w.tables.users[account];
            Ends(env, w, next,
                 w.tables.(users := w.tables.users[account :=
                   user.(counters := Touch(user.counters, DayIn(w.now, user.offset)))]),
                 multiset{})
  {
    var offset := w.tables.OffsetOf(account);
    var found := Begin(env, w, StartActivity(r, account), ActivityFound(account, offset));
    next := Advance(env, found, TouchByWrite(r), w.flows, ActivityFound(account, offset),
                    Plan(None, TouchUser(account, DayIn(w.now, offset)), multiset{}));
  }

  /** The account has a fresh code, unused and without attempts. */
  function WithCode(env: Env, now: int, t: Tables, account: AccountId, code: string): Tables {
    Tables(t.users,
           t.codes[account := CodeRow(t.nextSerial, env.hashSecret(code), 0, now + env.policy.codeTtl, None)],
           t.resets, t.nextSerial + 1)
  }

  function CodeNote(env: Env, now: int, t: Tables, account: AccountId, code: string): multiset<Note> {
    multiset{CodeSent(Secret(account, t.nextSerial), Issued(code, now + env.policy.codeTtl))}
  }

  lemma SendingACode(env: Env, w: World, account: AccountId, code: string, flow: Option<Flow>)
    ensures var plan := SendsCode(env, w, account, code, flow);
            && plan.flow == flow && plan.notes == CodeNote(env, w.now, w.tables, account, code)
            && Execute(w.tables, plan.statement) == WithCode(env, w.now, w.tables, account, code)
  {
  }

  /** A resend to an unverified account replaces its code. */
  lemma ResendIsARun(env: Env, w: World, r: nat, account: AccountId, code: string) returns (next: World)
    requires Reachable(env, w) && r !in w.flows && account in w.tables.users && !w.tables.Verified(account)
    ensures Ends(env, w, next, WithCode(env, w.now, w.tables, account, code),
            CodeNote(env, w.now, w.tables, account, code))
  {
    var found := Begin(env, w, StartResend(r, account), ResendFound(account));
    SendingACode(env, found, account, code, None);
    next := Advance(env, found, Resend(r, code), w.flows, ResendFound(account),
        SendsCode(env, found, account, code, None));
  }

  /** The account has a fresh reset token, unspent. */
  function WithToken(env: Env, now: int, t: Tables, account: AccountId, token: string): Tables {
    Tables(t.users, t.codes,
           t.resets[account := ResetRow(t.nextSerial, env.hashSecret(token), now + env.policy.resetTtl, None)],
           t.nextSerial + 1)
  }

  function TokenNote(env: Env, now: int, t: Tables, account: AccountId, token: string): multiset<Note> {
    multiset{ResetSent(Secret(account, t.nextSerial), Issued(token, now + env.policy.resetTtl))}
  }

  lemma SendingAToken(env: Env, w: World, account: AccountId, token: string)
    ensures var plan := SendsReset(env, w, account, token);
            && plan.flow == None && plan.notes == TokenNote(env, w.now, w.tables, account, token)
            && Execute(w.tables, plan.statement) == WithToken(env, w.now, w.tables, account, token)
  {
  }

  /** A forgotten password replaces the reset token of the account, verified or not. */
  lemma ForgotPasswordIsARun(env: Env, w: World, r: nat, account: AccountId, token: string) returns (next: World)
    requires Reachable(env, w) && r !in w.flows && account in w.tables.users
    ensures Ends(env, w, next, WithToken(env, w.now, w.tables, account, token),
                 TokenNote(env, w.now, w.tables, account, token))
  {
    var found := Begin(env, w, StartForgot(r, account), ForgotFound(account));
    SendingAToken(env, found, account, token);
    next := Advance(env, found, Forgot(r, token), w.flows, ForgotFound(account),
        SendsReset(env, found, account, token));
  }

  /** The tables after an account was inserted: unverified, active on its UTC day. */
  function WithUser(now: int, t: Tables, account: AccountId, email: string, passwordHash: string): Tables {
    t.(users := t.users[account := User(email, passwordHash, None, 0, Touch(NEVER, UTCDay(now)))])
  }

  lemma CreatesTheAccount(env: Env, w: World, r: nat, account: AccountId, email: string, passwordHash: string)
    returns (next: World)
    requires Reachable(env, w) && r !in w.flows && account !in w.tables.users
    requires forall id :: id in w.tables.users ==> w.tables.users[id].email != email
    ensures Reachable(env, next)
    ensures next == World(w.now, WithUser(w.now, w.tables, account, email, passwordHash),
                          w.flows[r := Registered(account)], w.log)
  {
    next := Do(env, w, CreateAccount(r, account, email, passwordHash));
    StepsReach(env, w, CreateAccount(r, account, email, passwordHash));
    assert w.log + multiset{} == w.log;
  }

  lemma SendsTheFirstCode(env: Env, w: World, r: nat, flows: map<nat, Flow>, account: AccountId, code: string)
    returns (next: World)
    requires Reachable(env, w) && r !in flows && w.flows == flows[r := Registered(account)]
    ensures Reachable(env, next)
    ensures next == World(w.now, WithCode(env, w.now, w.tables, account, code), flows[r := RegisteredWithCode(account)],
                          w.log + CodeNote(env, w.now, w.tables, account, code))
  {
    SendingACode(env, w, account, code, Some(RegisteredWithCode(account)));
    next := Advance(env, w, FirstCode(r, code), flows, Registered(account),
                    SendsCode(env, w, account, code, Some(RegisteredWithCode(account))));
  }

  /** What finishing a registration notes: a session of an unverified account, with the gate off only. */
  function FinishNote(env: Env, account: AccountId): multiset<Note> {
    if env.policy.requireVerifiedEmail then multiset{} else multiset{TokenIssued(account, false)}
  }

  lemma FinishesTheRegistration(env: Env, w: World, r: nat, flows: map<nat, Flow>, account: AccountId)
    returns (next: World)
    requires Reachable(env, w) && r !in flows && w.flows == flows[r := RegisteredWithCode(account)]
    requires !w.tables.Verified(account)
    ensures Reachable(env, next)
    ensures next == World(w.now, w.tables, flows, w.log + FinishNote(env, account))
  {
    next := Advance(env, w, FinishRegister(r), flows, RegisteredWithCode(account),
                    Plan(None, NoStatement, FinishNote(env, account)));
  }

  /** A registration creates the account with its first code; a session opens only with the gate off. */
  lemma RegisterIsARun(env: Env, w: World, r: nat, account: AccountId, email: string, passwordHash: string,
      code: string)
    returns (next: World)
    requires Reachable(env, w) && r !in w.flows && account !in w.tables.users
    requires forall id :: id in w.tables.users ==> w.tables.users[id].email != email
    ensures Ends(env, w, next,
                 WithCode(env, w.now, WithUser(w.now, w.tables, account, email, passwordHash), account, code),
                 CodeNote(env, w.now, w.tables, account, code) + FinishNote(env, account))
  {
    var created := CreatesTheAccount(env, w, r, account, email, passwordHash);
    var sent := SendsTheFirstCode(env, created, r, w.flows, account, code);
    next := FinishesTheRegistration(env, sent, r, w.flows, account);
    NotesAddUp(w.log, CodeNote(env, w.now, w.tables, account, code), FinishNote(env, account));
  }

  lemma SkipsTheFirstCode(env: Env, w: World, r: nat, flows: map<nat, Flow>, account: AccountId) returns (next: World)
    requires Reachable(env, w) && r !in flows && w.flows == flows[r := Registered(account)]
    ensures Reachable(env, next)
    ensures next == World(w.now, w.tables, flows[r := RegisteredWithCode(account)], w.log)
  {
    next := Advance(env, w, SkipFirstCode(r), flows, Registered(account), Goes(RegisteredWithCode(account)));
    assert w.log + multiset{} == w.log;
  }

  /** A first code that cannot be stored does not undo the registration. */
  lemma RegisterWithoutACodeIsARun(env: Env, w: World, r: nat, account: AccountId, email: string, passwordHash: string)
    returns (next: World)
    requires Reachable(env, w) && r !in w.flows && account !in w.tables.users
    requires forall id :: id in w.tables.users ==> w.tables.users[id].email != email
    ensures Ends(env, w, next, WithUser(w.now, w.tables, account, email, passwordHash), FinishNote(env, account))
  {
    var created := CreatesTheAccount(env, w, r, account, email, passwordHash);
    var skipped := SkipsTheFirstCode(env, created, r, w.flows, account);
    next := FinishesTheRegistration(env, skipped, r, w.flows, account);
  }

  // ---- Requests that are refused, and requests that die ----

  /** What the use cases check before their first statement, one by one. */
  ghost predicate IsRefused(env: Env, t: Tables, step: Step) {
    match step
    case StartVerify(_, account, _) => account in t.users ==> t.users[account].verifiedAt.Some?
    case StartLogin(_, account, password) =>
      account in t.users ==> !env.compare(t.users[account].passwordHash, password) ||
                             (env.policy.requireVerifiedEmail && t.users[account].verifiedAt.None?)
    case StartActivity(_, account) => account !in t.users
    case CreateAccount(_, account, email, _) =>
      account in t.users || exists id :: id in t.users && t.users[id].email == email
    case StartResend(_, account) => account in t.users ==> t.users[account].verifiedAt.Some?
    case StartForgot(_, account) => account !in t.users
    case StartReset(_, account, token, newPassword, _) =>
      ByteLength(newPassword) < 8 || 72 < ByteLength(newPassword) || account !in t.resets ||
      t.resets[account].hash != env.hashSecret(token)
    case _ => false
  }

  /** A refused request does nothing. */
  lemma RefusedRequestsDoNothing(env: Env, w: World, step: Step)
    requires IsRefused(env, w.tables, step) && step.r !in w.flows
    ensures Do(env, w, step) == w
  {
  }

  /** A request may die wherever it is: no statement runs, and only a lost miss or a lost spending is noted. */
  lemma RequestsMayDie(env: Env, w: World, r: nat)
    requires r in w.flows
    ensures Do(env, w, Drop(r)) ==
            World(w.now, w.tables, w.flows - {r},
                  w.log + if w.flows[r].VerifyMissed? then multiset{MissLost(w.flows[r].secret)}
                          else if w.flows[r].ResetReplaced? then multiset{SpendLost(w.flows[r].secret)}
                          else multiset{})
  {
  }

  // ---- How long secrets live ----

  lemma TimePasses(env: Env, w: World, elapsed: nat) returns (next: World)
    requires Reachable(env, w)
    ensures Reachable(env, next) && next == w.(now := w.now + elapsed)
  {
    next := Do(env, w, Tick(elapsed));
    StepsReach(env, w, Tick(elapsed));
  }

  /** A reset token left alone works exactly while less time has passed than the policy gives it. */
  lemma TokensLiveTheirLifetime(env: Env, w: World, r: nat, account: AccountId, token: string, password: string,
                                newHash: string, elapsed: nat)
    returns (next: World)
    requires Reachable(env, w) && r !in w.flows && account in w.tables.users
    requires 8 <= ByteLength(password) <= 72 && w.tables.users[account].passwordHash != newHash
    requires Tally(w.flows, Resetting(account)) < env.resetLimit
    ensures Reachable(env, next) && next.now == w.now + elapsed && next.flows == w.flows
    ensures next.tables.users ==
            if elapsed < env.policy.resetTtl
            then w.tables.users[account := w.tables.users[account].(passwordHash := newHash,
                                                                    verifiedAt := Some(w.now + elapsed))]
            else w.tables.users
  {
    var sent := ForgotPasswordIsARun(env, w, r, account, token);
    var later := TimePasses(env, sent, elapsed);
    next := ResetPasswordIsARun(env, later, r, account, token, password, newHash);
  }

  /** A code left alone opens a session exactly while less time has passed than the policy gives it. */
  lemma CodesLiveTheirLifetime(env: Env, w: World, r: nat, account: AccountId, code: string, elapsed: nat)
    returns (next: World)
    requires Reachable(env, w) && r !in w.flows && account in w.tables.users && !w.tables.Verified(account)
    requires Tally(w.flows, Verifying(account)) < env.verifyLimit && 0 < env.policy.maxAttempts
    ensures Reachable(env, next) && next.now == w.now + elapsed && next.flows == w.flows
    ensures next.log[CodeSession(Secret(account, w.tables.nextSerial))] ==
            w.log[CodeSession(Secret(account, w.tables.nextSerial))] + Bit(elapsed < env.policy.codeTtl)
    ensures next.tables.Verified(account) <==> elapsed < env.policy.codeTtl
  {
    var sent := ResendIsARun(env, w, r, account, code);
    var later := TimePasses(env, sent, elapsed);
    next := VerifyEmailIsARun(env, later, r, account, code);
  }

  // ---- Zone edits ----

  /** A profile edit moves the zone of one account, and nothing else; no zone is a day or more from UTC. */
  lemma SetZoneIsAStep(env: Env, w: World, account: AccountId, offset: int)
    requires account in w.tables.users
    ensures Do(env, w, SetZone(account, offset)) ==
            if -86400 < offset < 86400
            then w.(tables := w.tables.(users := w.tables.users[account := w.tables.users[account].(offset := offset)]))
            else w
  {
  }
}
