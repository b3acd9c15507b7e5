/**
 Concurrent auth requests. Every database statement of the use cases
 (internal/modules/auth/verification.go, password_reset.go, service.go) is one
 step, a clock may advance and any request may die between two steps, and a
 run is any sequence of steps. A step that is not enabled leaves the world
 alone, so the runs are exactly the interleavings.
 */
module AuthProtocol {
  import opened Wrappers
  import opened Activity
  import opened AuthStore

  /** One issued secret: whose it is, and its serial number. */
  datatype Secret = Secret(account: AccountId, serial: nat)

  /** What was sent by email, and until when it is good. */
  datatype Issued = Issued(plain: string, expiresAt: int)

  /** Where a request is: what it has read and what it does next. */
  datatype Flow =
    | VerifyFound(account: AccountId, code: string)
    | VerifyLoaded(account: AccountId, code: string, codeRow: CodeRow)
    | VerifyMissed(secret: Secret)
    | VerifyHit(secret: Secret, presented: string, at: int)
    | VerifyConsumed(secret: Secret, presented: string, at: int)
    | VerifyMarked(secret: Secret, presented: string, at: int, offset: int)
    | LoginAllowed(account: AccountId, offset: int)
    | LoginRecorded(account: AccountId)
    | ActivityFound(account: AccountId, offset: int)
    | Registered(account: AccountId)
    | RegisteredWithCode(account: AccountId)
    | ResendFound(account: AccountId)
    | ForgotFound(account: AccountId)
    | ResetLoaded(account: AccountId, token: string, resetRow: ResetRow, newHash: string)
    | ResetUsable(secret: Secret, presented: string, newHash: string, at: int)
    | ResetReplaced(secret: Secret, presented: string, at: int)
    | ResetConsumed(secret: Secret, presented: string, at: int)
  {
    function Account(): AccountId {
      if VerifyMissed? || VerifyHit? || VerifyConsumed? || VerifyMarked? || ResetUsable? || ResetReplaced? ||
          ResetConsumed?
      then secret.account else account
    }

    predicate Verifies() {
      VerifyFound? || VerifyLoaded? || VerifyMissed? || VerifyHit? || VerifyConsumed? || VerifyMarked?
    }

    predicate Resets() {
      ResetLoaded? || ResetUsable? || ResetReplaced? || ResetConsumed?
    }
  }

  // ---- The tables and the statements on them ----

  datatype Tables = Tables(users: map<AccountId, User>,
                           codes: map<AccountId, CodeRow>,
                           resets: map<AccountId, ResetRow>,
                           nextSerial: nat)
  {
    predicate Verified(account: AccountId) {
      account in users && users[account].EmailVerified()
    }

    /**
     Whether an UPDATE of the stamp, or of the password, changes the row. One
     that changes nothing reports no affected row, which is an error.
     */
    predicate Stamps(account: AccountId, at: int) {
      account in users && users[account].verifiedAt != Some(at)
    }

    predicate Rehashes(account: AccountId, hash: string) {
      account in users && users[account].passwordHash != hash
    }

    /** The zone of an account, as its offset. */
    function OffsetOf(account: AccountId): int {
      if account in users then users[account].offset else 0
    }
  }

  datatype Statement =
    | NoStatement
    | AddUser(account: AccountId, user: User)
    | SetOffset(account: AccountId, offset: int)
    | TouchUser(account: AccountId, day: int)
    | ConfirmUser(account: AccountId, at: int)
    | SetPassword(account: AccountId, hash: string)
    | PutCode(account: AccountId, hash: string, expiresAt: int)
    | MissCode(account: AccountId)
    | SpendCode(account: AccountId, at: int)
    | PutReset(account: AccountId, hash: string, expiresAt: int)
    | SpendReset(account: AccountId, at: int)

  function UserAfter(user: User, statement: Statement): User {
    match statement
    case SetOffset(_, offset) => user.(offset := offset)
    case TouchUser(_, day) => user.(counters := Touch(user.counters, day))
    case ConfirmUser(_, at) => user.(verifiedAt := Some(at))
    case SetPassword(_, hash) => user.(passwordHash := hash)
    case _ => user
  }

  function UsersAfter(t: Tables, statement: Statement): map<AccountId, User> {
    match statement
    case AddUser(account, user) => t.users[account := user]
    case NoStatement => t.users
    case _ =>
      var account := statement.account;
      if account in t.users then t.users[account := UserAfter(t.users[account], statement)] else t.users
  }

  function CodesAfter(t: Tables, statement: Statement): map<AccountId, CodeRow> {
    match statement
    case PutCode(account, hash, expiresAt) => t.codes[account := CodeRow(t.nextSerial, hash, 0, expiresAt, None)]
    case MissCode(account) => if account in t.codes then t.codes[account := t.codes[account].Missed()] else t.codes
    case SpendCode(account, at) => if account in t.codes then t.codes[account := t.codes[account].Consumed(at)]
        else t.codes
    case _ => t.codes
  }

  function ResetsAfter(t: Tables, statement: Statement): map<AccountId, ResetRow> {
    match statement
    case PutReset(account, hash, expiresAt) => t.resets[account := ResetRow(t.nextSerial, hash, expiresAt, None)]
    case SpendReset(account, at) => if account in t.resets then t.resets[account := t.resets[account].Consumed(at)]
        else t.resets
    case _ => t.resets
  }

  function Execute(t: Tables, statement: Statement): Tables {
    Tables(UsersAfter(t, statement), CodesAfter(t, statement), ResetsAfter(t, statement),
           if statement.PutCode? || statement.PutReset? then t.nextSerial + 1 else t.nextSerial)
  }

  // ---- What has happened, as a multiset of notes ----

  datatype Note =
    | CodeSent(secret: Secret, issued: Issued)
    | ResetSent(secret: Secret, issued: Issued)
    | CodeAccepted(secret: Secret, presented: string, at: int, codeRow: CodeRow)
    | ResetAccepted(secret: Secret, presented: string, at: int, resetRow: ResetRow)
    | WrongGuess(secret: Secret)
    | MissLost(secret: Secret)
    | CodeSpent(secret: Secret)
    | CodeSession(secret: Secret)
    | TokenIssued(account: AccountId, verified: bool)
    | PasswordReplaced(secret: Secret)
    | SpendLost(secret: Secret)
    | ConfirmedByCode(account: AccountId, secret: Secret, presented: string, at: int)
    | ConfirmedByReset(account: AccountId, secret: Secret, presented: string, at: int)

  datatype World = World(now: int, tables: Tables, flows: map<nat, Flow>, log: multiset<Note>)

  const EMPTY_WORLD := World(0, Tables(map[], map[], map[], 0), map[], multiset{})

  /**
   verifyLimit and resetLimit bound how many verify-email and reset-password
   requests of one account are in flight at once; every theorem holds for all
   limits, and one each means that such requests do not overlap.
   */
  datatype Env = Env(policy: Policy, verifyLimit: nat, resetLimit: nat,
                     hashSecret: string -> string, compare: (string, string) -> bool)
  {
    ghost predicate Valid() {
      policy.maxAttempts > 0 && forall a, b :: hashSecret(a) == hashSecret(b) ==> a == b
    }
  }

  // ---- Counting the requests in flight ----

  function Matching(flows: map<nat, Flow>, p: Flow -> bool): set<nat> {
    set r | r in flows && p(flows[r])
  }

  function Tally(flows: map<nat, Flow>, p: Flow -> bool): nat {
    |Matching(flows, p)|
  }

  function Bit(b: bool): nat {
    if b then 1 else 0
  }

  /** A verify-email request of this account. */
  function Verifying(account: AccountId): Flow -> bool {
    (flow: Flow) => flow.Verifies() && flow.Account() == account
  }

  /** A reset-password request of this account. */
  function Resetting(account: AccountId): Flow -> bool {
    (flow: Flow) => flow.Resets() && flow.Account() == account
  }

  // ---- The steps ----

  datatype Step =
    | Tick(elapsed: nat)
    | SetZone(account: AccountId, offset: int)
    | StartVerify(r: nat, account: AccountId, code: string)
    | LoadCode(r: nat)
    | CheckCode(r: nat)
    | RecordMiss(r: nat)
    | ConsumeCode(r: nat)
    | MarkByCode(r: nat)
    | TouchByCode(r: nat)
    | OpenByCode(r: nat)
    | StartLogin(r: nat, account: AccountId, password: string)
    | TouchByLogin(r: nat)
    | OpenByLogin(r: nat)
    | StartActivity(r: nat, account: AccountId)
    | TouchByWrite(r: nat)
    | CreateAccount(r: nat, account: AccountId, email: string, passwordHash: string)
    | FirstCode(r: nat, code: string)
    | SkipFirstCode(r: nat)
    | FinishRegister(r: nat)
    | StartResend(r: nat, account: AccountId)
    | Resend(r: nat, code: string)
    | StartForgot(r: nat, account: AccountId)
    | Forgot(r: nat, token: string)
    | StartReset(r: nat, account: AccountId, token: string, newPassword: string, newHash: string)
    | CheckReset(r: nat)
    | ReplacePassword(r: nat)
    | ConsumeReset(r: nat)
    | MarkByReset(r: nat)
    | Drop(r: nat)

  /** What a step does: one request moves on or ends, one statement runs, and it is noted. */
  datatype Plan = Plan(flow: Option<Flow>, statement: Statement, notes: multiset<Note>)

  function Goes(flow: Flow): Plan {
    Plan(Some(flow), NoStatement, multiset{})
  }

  const ENDS := Plan(None, NoStatement, multiset{})

  function SendsCode(env: Env, w: World, account: AccountId, code: string, flow: Option<Flow>): Plan {
    var expiresAt := w.now + env.policy.codeTtl;
    Plan(flow, PutCode(account, env.hashSecret(code), expiresAt),
         multiset{CodeSent(Secret(account, w.tables.nextSerial), Issued(code, expiresAt))})
  }

  function SendsReset(env: Env, w: World, account: AccountId, token: string): Plan {
    var expiresAt := w.now + env.policy.resetTtl;
    Plan(None, PutReset(account, env.hashSecret(token), expiresAt),
         multiset{ResetSent(Secret(account, w.tables.nextSerial), Issued(token, expiresAt))})
  }

  /** The first step of a request; None when the request ends there without an effect. */
  function StartPlan(env: Env, w: World, step: Step): Option<Plan> {
    match step
    case StartVerify(_, account, code) =>
      if account in w.tables.users && !w.tables.Verified(account) &&
          Tally(w.flows, Verifying(account)) < env.verifyLimit
      then Some(Goes(VerifyFound(account, code))) else None
    case StartLogin(_, account, password) =>
      if account in w.tables.users && env.compare(w.tables.users[account].passwordHash, password) &&
         (env.policy.requireVerifiedEmail ==> w.tables.Verified(account))
      then Some(Goes(LoginAllowed(account, w.tables.OffsetOf(account)))) else None
    case StartActivity(_, account) =>
      if account in w.tables.users then Some(Goes(ActivityFound(account, w.tables.OffsetOf(account)))) else None
    case CreateAccount(_, account, email, passwordHash) =>
      if account !in w.tables.users && (forall id | id in w.tables.users :: w.tables.users[id].email != email) then
        Some(Plan(Some(Registered(account)),
                  AddUser(account, User(email, passwordHash, None, 0, Touch(NEVER, UTCDay(w.now)))), multiset{}))
      else None
    case StartResend(_, account) =>
      if account in w.tables.users && !w.tables.Verified(account) then Some(Goes(ResendFound(account))) else None
    case StartForgot(_, account) =>
      if account in w.tables.users then Some(Goes(ForgotFound(account))) else None
    case StartReset(_, account, token, newPassword, newHash) =>
      if PasswordIsAcceptable(newPassword) && account in w.tables.resets &&
         w.tables.resets[account].hash == env.hashSecret(token) && Tally(w.flows, Resetting(account)) < env.resetLimit
      then Some(Goes(ResetLoaded(account, token, w.tables.resets[account], newHash))) else None
    case _ => None
  }

  /** A request that dies between two steps: the client left, or a statement failed. */
  function DropPlan(flow: Flow): Plan {
    if flow.VerifyMissed? then Plan(None, NoStatement, multiset{MissLost(flow.secret)})
    else if flow.ResetReplaced? then Plan(None, NoStatement, multiset{SpendLost(flow.secret)})
    else ENDS
  }

  /** A later step of a request that has come as far as flow. */
  function NextPlan(env: Env, w: World, step: Step, flow: Flow): Option<Plan> {
    if step.Drop? then Some(DropPlan(flow)) else
    match flow
    case VerifyFound(account, code) =>
      if !step.LoadCode? then None
      else if account in w.tables.codes then Some(Goes(VerifyLoaded(account, code, w.tables.codes[account])))
      else Some(ENDS)
    case VerifyLoaded(account, code, codeRow) =>
      var secret := Secret(account, codeRow.serial);
      if !step.CheckCode? then None
      else if !codeRow.Usable(w.now, env.policy.maxAttempts) then Some(ENDS)
      else if codeRow.hash != env.hashSecret(code) then
        Some(Plan(Some(VerifyMissed(secret)), NoStatement, multiset{WrongGuess(secret)}))
      else
        Some(Plan(Some(VerifyHit(secret, code, w.now)), NoStatement,
                  multiset{CodeAccepted(secret, code, w.now, codeRow)}))
    case VerifyMissed(secret) =>
      if step.RecordMiss? then Some(Plan(None, MissCode(secret.account), multiset{})) else None
    case VerifyHit(secret, presented, at) =>
      if !step.ConsumeCode? then None
      else Some(Plan(Some(VerifyConsumed(secret, presented, at)), SpendCode(secret.account, at),
          multiset{CodeSpent(secret)}))
    case VerifyConsumed(secret, presented, at) =>
      if !step.MarkByCode? then None
      else if !w.tables.Stamps(secret.account, at) then Some(ENDS)
      else Some(Plan(Some(VerifyMarked(secret, presented, at, w.tables.OffsetOf(secret.account))),
                     ConfirmUser(secret.account, at),
                     multiset{ConfirmedByCode(secret.account, secret, presented, at)}))
    case VerifyMarked(secret, _, at, offset) =>
      if step.TouchByCode? then Some(Plan(Some(flow), TouchUser(secret.account, DayIn(at, offset)), multiset{}))
      else if step.OpenByCode? then
        Some(Plan(None, NoStatement,
                  multiset{CodeSession(secret), TokenIssued(secret.account, w.tables.Verified(secret.account))}))
      else None
    case LoginAllowed(account, offset) =>
      if !step.TouchByLogin? then None
      else Some(Plan(Some(LoginRecorded(account)), TouchUser(account, DayIn(w.now, offset)), multiset{}))
    case LoginRecorded(account) =>
      if !step.OpenByLogin? then None
      else Some(Plan(None, NoStatement, multiset{TokenIssued(account, w.tables.Verified(account))}))
    case ActivityFound(account, offset) =>
      if !step.TouchByWrite? then None
      else Some(Plan(None, TouchUser(account, DayIn(w.now, offset)), multiset{}))
    case Registered(account) =>
      if step.FirstCode? then Some(SendsCode(env, w, account, step.code, Some(RegisteredWithCode(account))))
      else if step.SkipFirstCode? then Some(Goes(RegisteredWithCode(account)))
      else None
    case RegisteredWithCode(account) =>
      if !step.FinishRegister? then None
      else if env.policy.requireVerifiedEmail then Some(ENDS)
      else Some(Plan(None, NoStatement, multiset{TokenIssued(account, w.tables.Verified(account))}))
    case ResendFound(account) =>
      if step.Resend? then Some(SendsCode(env, w, account, step.code, None)) else None
    case ForgotFound(account) =>
      if step.Forgot? then Some(SendsReset(env, w, account, step.token)) else None
    case ResetLoaded(account, token, resetRow, newHash) =>
      var secret := Secret(account, resetRow.serial);
      if !step.CheckReset? then None
      else if !resetRow.Usable(w.now) then Some(ENDS)
      else
        Some(Plan(Some(ResetUsable(secret, token, newHash, w.now)), NoStatement,
                  multiset{ResetAccepted(secret, token, w.now, resetRow)}))
    case ResetUsable(secret, presented, newHash, at) =>
      if !step.ReplacePassword? then None
      else if !w.tables.Rehashes(secret.account, newHash) then Some(ENDS)
      else Some(Plan(Some(ResetReplaced(secret, presented, at)), SetPassword(secret.account, newHash),
                     multiset{PasswordReplaced(secret)}))
    case ResetReplaced(secret, presented, at) =>
      if !step.ConsumeReset? then None
      else Some(Plan(Some(ResetConsumed(secret, presented, at)), SpendReset(secret.account, at), multiset{}))
    case ResetConsumed(secret, presented, at) =>
      if !step.MarkByReset? then None
      else Some(Plan(None, ConfirmUser(secret.account, at),
                     multiset{ConfirmedByReset(secret.account, secret, presented, at)}))
  }

  function PlanOf(env: Env, w: World, r: nat, step: Step): Option<Plan> {
    if r in w.flows then NextPlan(env, w, step, w.flows[r]) else StartPlan(env, w, step)
  }

  function FlowsAfter(flows: map<nat, Flow>, r: nat, flow: Option<Flow>): map<nat, Flow> {
    match flow
    case Some(next) => flows[r := next]
    case None => flows - {r}
  }

  function CarryOut(w: World, r: nat, plan: Plan): World {
    World(w.now, Execute(w.tables, plan.statement), FlowsAfter(w.flows, r, plan.flow), w.log + plan.notes)
  }

  function Do(env: Env, w: World, step: Step): World {
    match step
    case Tick(elapsed) => w.(now := w.now + elapsed)
    case SetZone(account, offset) =>
      if IsOffset(offset) then w.(tables := Execute(w.tables, SetOffset(account, offset))) else w
    case _ =>
      match PlanOf(env, w, step.r, step)
      case Some(plan) => CarryOut(w, step.r, plan)
      case None => w
  }

  /** Any continuation of a world. */
  function RunFrom(env: Env, w: World, steps: seq<Step>): World {
    if steps == [] then w
    else Do(env, RunFrom(env, w, steps[..|steps| - 1]), steps[|steps| - 1])
  }

  function RunSteps(env: Env, steps: seq<Step>): World {
    RunFrom(env, EMPTY_WORLD, steps)
  }

  // ---- How the tallies move ----

  lemma TallyEnds(flows: map<nat, Flow>, r: nat, p: Flow -> bool)
    ensures Tally(flows - {r}, p) == Tally(flows, p) - Bit(r in flows && p(flows[r]))
  {
    assert Matching(flows - {r}, p) == Matching(flows, p) - {r};
  }

  lemma TallyGoes(flows: map<nat, Flow>, r: nat, flow: Flow, p: Flow -> bool)
    ensures Tally(flows[r := flow], p) == Tally(flows - {r}, p) + Bit(p(flow))
  {
    var others := Matching(flows - {r}, p);
    if p(flow) {
      assert Matching(flows[r := flow], p) == others + {r};
    } else {
      assert Matching(flows[r := flow], p) == others;
    }
  }

  /** A request that moves on or ends leaves one tally and enters another. */
  lemma TallyMoves(flows: map<nat, Flow>, r: nat, flow: Option<Flow>, p: Flow -> bool)
    ensures Tally(FlowsAfter(flows, r, flow), p) ==
            Tally(flows, p) - Bit(r in flows && p(flows[r])) + Bit(flow.Some? && p(flow.value))
  {
    TallyEnds(flows, r, p);
    match flow
    case Some(next) => TallyGoes(flows, r, next, p);
    case None =>
  }

  lemma TallyParts(flows: map<nat, Flow>, p: Flow -> bool, q: Flow -> bool, whole: Flow -> bool)
    requires forall flow: Flow :: (p(flow) ==> whole(flow) && !q(flow)) && (q(flow) ==> whole(flow))
    ensures Tally(flows, p) + Tally(flows, q) <= Tally(flows, whole)
  {
    var ps, qs, all := Matching(flows, p), Matching(flows, q), Matching(flows, whole);
    assert ps !! qs && ps + qs <= all;
    assert |ps + qs| == |ps| + |qs|;
    assert all == (ps + qs) + (all - (ps + qs));
  }
}
