/**
 Safety of the verification gate over every interleaving: which accounts get
 tokens, what may confirm an account, and that emails stay unique.
 */
module AuthGate {
  import opened Wrappers
  import opened AuthStore
  import opened AuthProtocol

  // ---- What no step undoes ----

  lemma StatementsKeepAccounts(t: Tables, statement: Statement, account: AccountId)
    requires account in t.users
    requires statement.AddUser? ==> statement.account !in t.users
    ensures var next := Execute(t, statement);
            && account in next.users && next.users[account].email == t.users[account].email
            && (t.Verified(account) ==> next.Verified(account))
            && (next.Verified(account) ==>
                  t.Verified(account) || (statement.ConfirmUser? && statement.account == account))
  {
  }

  /** A request in flight stays with its account; none of its statements adds one. */
  lemma StatementsKeepTheirAccount(env: Env, w: World, step: Step, flow: Flow)
    requires NextPlan(env, w, step, flow).Some?
    ensures var statement := NextPlan(env, w, step, flow).value.statement;
            statement.NoStatement? || (!statement.AddUser? && statement.account == flow.Account())
  {
  }

  lemma PlansAddNewAccounts(env: Env, w: World, r: nat, step: Step)
    requires PlanOf(env, w, r, step).Some?
    ensures var statement := PlanOf(env, w, r, step).value.statement;
            statement.AddUser? ==>
              && statement.account !in w.tables.users && !statement.user.EmailVerified()
              && forall id :: id in w.tables.users ==> w.tables.users[id].email != statement.user.email
  {
    if r in w.flows {
      StatementsKeepTheirAccount(env, w, step, w.flows[r]);
    }
  }

  /** The account stays, keeps its address, and stays confirmed if it was. */
  ghost predicate KeepsAccount(t: Tables, next: Tables, account: AccountId)
    requires account in t.users
  {
    && account in next.users && next.users[account].email == t.users[account].email
    && (t.Verified(account) ==> next.Verified(account))
  }

  lemma CarryingOutKeepsAccounts(env: Env, w: World, step: Step, account: AccountId)
    requires !step.Tick? && !step.SetZone? && PlanOf(env, w, step.r, step).Some? && account in w.tables.users
    ensures var next := CarryOut(w, step.r, PlanOf(env, w, step.r, step).value);
            KeepsAccount(w.tables, next.tables, account) && w.now == next.now
  {
    PlansAddNewAccounts(env, w, step.r, step);
    StatementsKeepAccounts(w.tables, PlanOf(env, w, step.r, step).value.statement, account);
  }

  /** Accounts stay, keep their address, and once confirmed stay confirmed; the clock never runs back. */
  lemma VerificationIsNeverUndone(env: Env, w: World, step: Step, account: AccountId)
    requires account in w.tables.users
    ensures var next := Do(env, w, step);
            KeepsAccount(w.tables, next.tables, account) && w.now <= next.now
  {
    if step.SetZone? {
      StatementsKeepAccounts(w.tables, SetOffset(step.account, step.offset), account);
    } else if !step.Tick? && PlanOf(env, w, step.r, step).Some? {
      CarryingOutKeepsAccounts(env, w, step, account);
    }
  }

  lemma OnlyConfirmersConfirm(env: Env, w: World, step: Step, flow: Flow)
    requires NextPlan(env, w, step, flow).Some? && NextPlan(env, w, step, flow).value.statement.ConfirmUser?
    ensures (step.MarkByCode? && flow.VerifyConsumed?) || (step.MarkByReset? && flow.ResetConsumed?)
    ensures NextPlan(env, w, step, flow).value.statement.account == flow.Account()
  {
  }

  /** The request is about to confirm this account, by a spent code or by a spent reset token. */
  predicate Confirms(step: Step, flow: Flow, account: AccountId) {
    flow.Account() == account &&
    ((step.MarkByCode? && flow.VerifyConsumed?) || (step.MarkByReset? && flow.ResetConsumed?))
  }

  lemma PlansConfirm(env: Env, w: World, r: nat, step: Step, account: AccountId)
    requires PlanOf(env, w, r, step).Some?
    ensures !w.tables.Verified(account) &&
            Execute(w.tables, PlanOf(env, w, r, step).value.statement).Verified(account) ==>
              r in w.flows && Confirms(step, w.flows[r], account)
  {
    var statement := PlanOf(env, w, r, step).value.statement;
    PlansAddNewAccounts(env, w, r, step);
    if account in w.tables.users {
      StatementsKeepAccounts(w.tables, statement, account);
    }
    if r in w.flows && statement.ConfirmUser? {
      OnlyConfirmersConfirm(env, w, step, w.flows[r]);
    }
  }

  /** Only two steps confirm an account: after a spent code and after a spent reset token, each of this account. */
  lemma OnlySecretsVerify(env: Env, w: World, step: Step, account: AccountId)
    requires !w.tables.Verified(account) && Do(env, w, step).tables.Verified(account)
    ensures !step.Tick? && !step.SetZone? && step.r in w.flows && Confirms(step, w.flows[step.r], account)
  {
    if step.SetZone? {
      if account in w.tables.users {
        StatementsKeepAccounts(w.tables, SetOffset(step.account, step.offset), account);
      }
    } else if !step.Tick? && PlanOf(env, w, step.r, step).Some? {
      PlansConfirm(env, w, step.r, step, account);
    }
  }

  // ---- The gate ----

  ghost predicate FlowIsSound(env: Env, t: Tables, flow: Flow) {
    && flow.Account() in t.users
    && ((flow.LoginAllowed? || flow.LoginRecorded?) && env.policy.requireVerifiedEmail ==> t.Verified(flow.account))
    && (flow.VerifyMarked? ==> t.Verified(flow.secret.account))
  }

  ghost predicate GateInv(env: Env, w: World) {
    && w.tables.codes.Keys <= w.tables.users.Keys && w.tables.resets.Keys <= w.tables.users.Keys
    && (forall r :: r in w.flows ==> FlowIsSound(env, w.tables, w.flows[r]))
    && (forall a, v :: TokenIssued(a, v) in w.log ==>
          (env.policy.requireVerifiedEmail ==> v) && (v ==> w.tables.Verified(a)))
  }

  lemma RequestsKeepTheirAccount(env: Env, w: World, step: Step, flow: Flow)
    requires NextPlan(env, w, step, flow).Some? && NextPlan(env, w, step, flow).value.flow.Some?
    ensures NextPlan(env, w, step, flow).value.flow.value.Account() == flow.Account()
  {
  }

  lemma LoginsAndMarksAreConfirmed(env: Env, w: World, step: Step, flow: Flow)
    requires NextPlan(env, w, step, flow).Some? && NextPlan(env, w, step, flow).value.flow.Some?
    ensures var plan := NextPlan(env, w, step, flow).value;
            && !plan.flow.value.LoginAllowed? && (plan.flow.value.LoginRecorded? ==> flow.LoginAllowed?)
            && (plan.flow.value.VerifyMarked? ==> plan.flow.value == flow || plan.statement.ConfirmUser?)
  {
  }

  lemma NextFlowsAreSound(env: Env, w: World, step: Step, flow: Flow)
    requires FlowIsSound(env, w.tables, flow)
    requires NextPlan(env, w, step, flow).Some? && NextPlan(env, w, step, flow).value.flow.Some?
    ensures var plan := NextPlan(env, w, step, flow).value;
            FlowIsSound(env, Execute(w.tables, plan.statement), plan.flow.value)
  {
    var plan := NextPlan(env, w, step, flow).value;
    RequestsKeepTheirAccount(env, w, step, flow);
    StatementsKeepTheirAccount(env, w, step, flow);
    StatementsKeepAccounts(w.tables, plan.statement, flow.Account());
    LoginsAndMarksAreConfirmed(env, w, step, flow);
  }

  lemma StartedFlowsAreSound(env: Env, w: World, step: Step)
    requires GateInv(env, w) && StartPlan(env, w, step).Some?
    ensures var plan := StartPlan(env, w, step).value;
            && plan.flow.Some? && FlowIsSound(env, Execute(w.tables, plan.statement), plan.flow.value)
            && (plan.statement.NoStatement? || plan.statement.AddUser?) && plan.notes == multiset{}
  {
  }

  lemma TokensAreForVerifiedAccounts(env: Env, w: World, step: Step, flow: Flow)
    requires FlowIsSound(env, w.tables, flow) && NextPlan(env, w, step, flow).Some?
    ensures forall a, v :: TokenIssued(a, v) in NextPlan(env, w, step, flow).value.notes ==>
              (env.policy.requireVerifiedEmail ==> v) && v == w.tables.Verified(a)
  {
  }

  lemma PlansAreSound(env: Env, w: World, r: nat, step: Step)
    requires GateInv(env, w) && PlanOf(env, w, r, step).Some?
    ensures var plan := PlanOf(env, w, r, step).value;
            && (plan.flow.Some? ==> FlowIsSound(env, Execute(w.tables, plan.statement), plan.flow.value))
            && (plan.statement.PutCode? || plan.statement.PutReset? ==> plan.statement.account in w.tables.users)
            && forall a, v :: TokenIssued(a, v) in plan.notes ==>
                 (env.policy.requireVerifiedEmail ==> v) && v == w.tables.Verified(a)
  {
    if r in w.flows {
      var flow := w.flows[r];
      assert FlowIsSound(env, w.tables, flow);
      StatementsKeepTheirAccount(env, w, step, flow);
      TokensAreForVerifiedAccounts(env, w, step, flow);
      if NextPlan(env, w, step, flow).value.flow.Some? {
        NextFlowsAreSound(env, w, step, flow);
      }
    } else {
      StartedFlowsAreSound(env, w, step);
    }
  }

  lemma CarryingOutKeepsGateInv(env: Env, w: World, r: nat, plan: Plan)
    requires GateInv(env, w)
    requires plan.statement.AddUser? ==> plan.statement.account !in w.tables.users
    requires plan.flow.Some? ==> FlowIsSound(env, Execute(w.tables, plan.statement), plan.flow.value)
    requires plan.statement.PutCode? || plan.statement.PutReset? ==> plan.statement.account in w.tables.users
    requires forall a, v :: TokenIssued(a, v) in plan.notes ==>
               (env.policy.requireVerifiedEmail ==> v) && v == w.tables.Verified(a)
    ensures GateInv(env, CarryOut(w, r, plan))
  {
    var next := CarryOut(w, r, plan);
    forall a | a in w.tables.users
      ensures a in next.tables.users && (w.tables.Verified(a) ==> next.tables.Verified(a))
    {
      StatementsKeepAccounts(w.tables, plan.statement, a);
    }
    forall q | q in w.flows ensures FlowIsSound(env, next.tables, w.flows[q]) {
      assert FlowIsSound(env, w.tables, w.flows[q]);
    }
    forall a, v | TokenIssued(a, v) in next.log
      ensures (env.policy.requireVerifiedEmail ==> v) && (v ==> next.tables.Verified(a))
    {
      assert TokenIssued(a, v) in w.log || TokenIssued(a, v) in plan.notes;
    }
  }

  lemma StepKeepsGateInv(env: Env, w: World, step: Step)
    requires GateInv(env, w)
    ensures GateInv(env, Do(env, w, step))
  {
    if step.SetZone? {
      forall a | a in w.tables.users {
        StatementsKeepAccounts(w.tables, SetOffset(step.account, step.offset), a);
      }
      forall r | r in w.flows ensures FlowIsSound(env, Do(env, w, step).tables, w.flows[r]) {
        assert FlowIsSound(env, w.tables, w.flows[r]);
      }
    } else if !step.Tick? && PlanOf(env, w, step.r, step).Some? {
      PlansAddNewAccounts(env, w, step.r, step);
      PlansAreSound(env, w, step.r, step);
      CarryingOutKeepsGateInv(env, w, step.r, PlanOf(env, w, step.r, step).value);
    }
  }

  lemma {:induction false} EveryRunKeepsGateInv(env: Env, steps: seq<Step>)
    ensures GateInv(env, RunSteps(env, steps))
  {
    if steps != [] {
      EveryRunKeepsGateInv(env, steps[..|steps| - 1]);
      StepKeepsGateInv(env, RunSteps(env, steps[..|steps| - 1]), steps[|steps| - 1]);
    }
  }

  /**
   With the gate on, in every interleaving every token ever issued was issued
   to an account that was verified at that moment, and that still is.
   */
  lemma GateHolds(env: Env, steps: seq<Step>, account: AccountId, verified: bool)
    requires env.policy.requireVerifiedEmail
    requires TokenIssued(account, verified) in RunSteps(env, steps).log
    ensures verified && RunSteps(env, steps).tables.Verified(account)
  {
    EveryRunKeepsGateInv(env, steps);
  }

  // ---- One account per address ----

  ghost predicate EmailsAreUnique(t: Tables) {
    forall a, b :: a in t.users && b in t.users && t.users[a].email == t.users[b].email ==> a == b
  }

  lemma StatementsKeepEmailsUnique(t: Tables, statement: Statement)
    requires EmailsAreUnique(t)
    requires statement.AddUser? ==>
               statement.account !in t.users && forall id :: id in t.users ==> t.users[id].email != statement.user.email
    ensures EmailsAreUnique(Execute(t, statement))
  {
    var next := Execute(t, statement);
    forall id | id in t.users ensures id in next.users && next.users[id].email == t.users[id].email {
      StatementsKeepAccounts(t, statement, id);
    }
  }

  lemma CarryingOutKeepsEmailsUnique(env: Env, w: World, step: Step)
    requires !step.Tick? && !step.SetZone? && PlanOf(env, w, step.r, step).Some? && EmailsAreUnique(w.tables)
    ensures EmailsAreUnique(CarryOut(w, step.r, PlanOf(env, w, step.r, step).value).tables)
  {
    PlansAddNewAccounts(env, w, step.r, step);
    StatementsKeepEmailsUnique(w.tables, PlanOf(env, w, step.r, step).value.statement);
  }

  lemma StepKeepsEmailsUnique(env: Env, w: World, step: Step)
    requires EmailsAreUnique(w.tables)
    ensures EmailsAreUnique(Do(env, w, step).tables)
  {
    if step.SetZone? {
      StatementsKeepEmailsUnique(w.tables, SetOffset(step.account, step.offset));
    } else if !step.Tick? && PlanOf(env, w, step.r, step).Some? {
      CarryingOutKeepsEmailsUnique(env, w, step);
    }
  }

  /** However registrations race, the unique index leaves one account per address. */
  lemma {:induction false} OneAccountPerEmail(env: Env, steps: seq<Step>)
    ensures EmailsAreUnique(RunSteps(env, steps).tables)
  {
    if steps != [] {
      OneAccountPerEmail(env, steps[..|steps| - 1]);
      StepKeepsEmailsUnique(env, RunSteps(env, steps[..|steps| - 1]), steps[|steps| - 1]);
    }
  }

  // ---- What confirmed an account ----

  /** The row stores the hash and the expiry of a code that was sent to this account. */
  ghost predicate CodeIsIssued(env: Env, log: multiset<Note>, account: AccountId, row: CodeRow) {
    exists plain :: CodeSent(Secret(account, row.serial), Issued(plain, row.expiresAt)) in log &&
                    row.hash == env.hashSecret(plain)
  }

  ghost predicate ResetIsIssued(env: Env, log: multiset<Note>, account: AccountId, row: ResetRow) {
    exists plain :: ResetSent(Secret(account, row.serial), Issued(plain, row.expiresAt)) in log &&
                    row.hash == env.hashSecret(plain)
  }

  ghost predicate CodeWasAccepted(env: Env, log: multiset<Note>, secret: Secret, presented: string, at: int,
                                  row: CodeRow) {
    && CodeAccepted(secret, presented, at, row) in log
    && CodeSent(secret, Issued(presented, row.expiresAt)) in log
    && row.serial == secret.serial && row.hash == env.hashSecret(presented)
    && row.consumedAt.None? && at < row.expiresAt && row.attempts < env.policy.maxAttempts
  }

  /**
   The presented text is the code that was sent, and the row loaded for it was
   usable when it was checked: unspent, before its expiry, with an attempt left.
   */
  ghost predicate CodeWasGood(env: Env, log: multiset<Note>, secret: Secret, presented: string, at: int) {
    exists row :: CodeWasAccepted(env, log, secret, presented, at, row)
  }

  ghost predicate ResetWasAccepted(env: Env, log: multiset<Note>, secret: Secret, presented: string, at: int,
                                   row: ResetRow) {
    && ResetAccepted(secret, presented, at, row) in log
    && ResetSent(secret, Issued(presented, row.expiresAt)) in log
    && row.serial == secret.serial && row.hash == env.hashSecret(presented)
    && row.consumedAt.None? && at < row.expiresAt
  }

  /** The same for a reset token: the row loaded for it was unspent and had not expired. */
  ghost predicate ResetWasGood(env: Env, log: multiset<Note>, secret: Secret, presented: string, at: int) {
    exists row :: ResetWasAccepted(env, log, secret, presented, at, row)
  }

  ghost predicate FlowHasProof(env: Env, log: multiset<Note>, flow: Flow) {
    match flow
    case VerifyLoaded(account, _, codeRow) => CodeIsIssued(env, log, account, codeRow)
    case VerifyHit(secret, presented, at) => CodeWasGood(env, log, secret, presented, at)
    case VerifyConsumed(secret, presented, at) => CodeWasGood(env, log, secret, presented, at)
    case VerifyMarked(secret, presented, at, _) => CodeWasGood(env, log, secret, presented, at)
    case ResetLoaded(account, token, resetRow, _) =>
      ResetIsIssued(env, log, account, resetRow) && resetRow.hash == env.hashSecret(token)
    case ResetUsable(secret, presented, _, at) => ResetWasGood(env, log, secret, presented, at)
    case ResetReplaced(secret, presented, at) => ResetWasGood(env, log, secret, presented, at)
    case ResetConsumed(secret, presented, at) => ResetWasGood(env, log, secret, presented, at)
    case _ => true
  }

  /** A code of this account, or a reset token of this account, that was good when it was presented. */
  ghost predicate HasProof(env: Env, log: multiset<Note>, account: AccountId) {
    exists secret: Secret, presented: string, at: int ::
      secret.account == account &&
      ((ConfirmedByCode(account, secret, presented, at) in log && CodeWasGood(env, log, secret, presented, at)) ||
       (ConfirmedByReset(account, secret, presented, at) in log && ResetWasGood(env, log, secret, presented, at)))
  }

  /** Whoever opened a session with this code, or replaced a password with this token, presented it in time. */
  ghost predicate CodeWasUsedWell(env: Env, log: multiset<Note>, secret: Secret) {
    exists presented: string, at: int :: CodeWasGood(env, log, secret, presented, at)
  }

  ghost predicate ResetWasUsedWell(env: Env, log: multiset<Note>, secret: Secret) {
    exists presented: string, at: int :: ResetWasGood(env, log, secret, presented, at)
  }

  ghost predicate UsesWereGood(env: Env, log: multiset<Note>) {
    && (forall k :: CodeSession(k) in log ==> CodeWasUsedWell(env, log, k))
    && (forall k :: PasswordReplaced(k) in log ==> ResetWasUsedWell(env, log, k))
  }

  ghost predicate ProofInv(env: Env, w: World) {
    && (forall a :: a in w.tables.codes ==> CodeIsIssued(env, w.log, a, w.tables.codes[a]))
    && (forall a :: a in w.tables.resets ==> ResetIsIssued(env, w.log, a, w.tables.resets[a]))
    && (forall r :: r in w.flows ==> FlowHasProof(env, w.log, w.flows[r]))
    && (forall a :: w.tables.Verified(a) ==> HasProof(env, w.log, a))
    && UsesWereGood(env, w.log)
  }

  // A note once made stays: each of these lasts as the log grows.

  lemma CodeIssueLasts(env: Env, log: multiset<Note>, more: multiset<Note>, account: AccountId, row: CodeRow)
    requires CodeIsIssued(env, log, account, row)
    ensures CodeIsIssued(env, log + more, account, row)
  {
    var plain :| CodeSent(Secret(account, row.serial), Issued(plain, row.expiresAt)) in log &&
                 row.hash == env.hashSecret(plain);
    assert CodeSent(Secret(account, row.serial), Issued(plain, row.expiresAt)) in log + more;
  }

  lemma ResetIssueLasts(env: Env, log: multiset<Note>, more: multiset<Note>, account: AccountId, row: ResetRow)
    requires ResetIsIssued(env, log, account, row)
    ensures ResetIsIssued(env, log + more, account, row)
  {
    var plain :| ResetSent(Secret(account, row.serial), Issued(plain, row.expiresAt)) in log &&
                 row.hash == env.hashSecret(plain);
    assert ResetSent(Secret(account, row.serial), Issued(plain, row.expiresAt)) in log + more;
  }

  lemma CodeStaysGood(env: Env, log: multiset<Note>, more: multiset<Note>, secret: Secret, presented: string, at: int)
    requires CodeWasGood(env, log, secret, presented, at)
    ensures CodeWasGood(env, log + more, secret, presented, at)
  {
    var row :| CodeWasAccepted(env, log, secret, presented, at, row);
    assert CodeWasAccepted(env, log + more, secret, presented, at, row);
  }

  lemma ResetStaysGood(env: Env, log: multiset<Note>, more: multiset<Note>, secret: Secret, presented: string, at: int)
    requires ResetWasGood(env, log, secret, presented, at)
    ensures ResetWasGood(env, log + more, secret, presented, at)
  {
    var row :| ResetWasAccepted(env, log, secret, presented, at, row);
    assert ResetWasAccepted(env, log + more, secret, presented, at, row);
  }

  lemma FlowKeepsProof(env: Env, log: multiset<Note>, more: multiset<Note>, flow: Flow)
    requires FlowHasProof(env, log, flow)
    ensures FlowHasProof(env, log + more, flow)
  {
    match flow
    case VerifyLoaded(account, _, codeRow) => CodeIssueLasts(env, log, more, account, codeRow);
    case VerifyHit(secret, presented, at) => CodeStaysGood(env, log, more, secret, presented, at);
    case VerifyConsumed(secret, presented, at) => CodeStaysGood(env, log, more, secret, presented, at);
    case VerifyMarked(secret, presented, at, _) => CodeStaysGood(env, log, more, secret, presented, at);
    case ResetLoaded(account, _, resetRow, _) => ResetIssueLasts(env, log, more, account, resetRow);
    case ResetUsable(secret, presented, _, at) => ResetStaysGood(env, log, more, secret, presented, at);
    case ResetReplaced(secret, presented, at) => ResetStaysGood(env, log, more, secret, presented, at);
    case ResetConsumed(secret, presented, at) => ResetStaysGood(env, log, more, secret, presented, at);
    case _ =>
  }

  lemma AccountKeepsProof(env: Env, log: multiset<Note>, more: multiset<Note>, account: AccountId)
    requires HasProof(env, log, account)
    ensures HasProof(env, log + more, account)
  {
    var secret: Secret, presented: string, at: int :|
      secret.account == account &&
      ((ConfirmedByCode(account, secret, presented, at) in log && CodeWasGood(env, log, secret, presented, at)) ||
       (ConfirmedByReset(account, secret, presented, at) in log && ResetWasGood(env, log, secret, presented, at)));
    if ConfirmedByCode(account, secret, presented, at) in log && CodeWasGood(env, log, secret, presented, at) {
      CodeStaysGood(env, log, more, secret, presented, at);
      assert ConfirmedByCode(account, secret, presented, at) in log + more;
    } else {
      ResetStaysGood(env, log, more, secret, presented, at);
      assert ConfirmedByReset(account, secret, presented, at) in log + more;
    }
  }

  // ---- Steps keep the proofs ----

  /** A statement that stores a secret stores the hash and the expiry of what the same step sends. */
  ghost predicate SendsWhatItStores(env: Env, t: Tables, statement: Statement, notes: multiset<Note>) {
    && (statement.PutCode? ==>
          CodeIsIssued(env, notes, statement.account,
              CodeRow(t.nextSerial, statement.hash, 0, statement.expiresAt, None)))
    && (statement.PutReset? ==>
          ResetIsIssued(env, notes, statement.account,
              ResetRow(t.nextSerial, statement.hash, statement.expiresAt, None)))
  }

  lemma SendingStores(env: Env, w: World, account: AccountId, plain: string, flow: Option<Flow>)
    ensures var plan := SendsCode(env, w, account, plain, flow);
            SendsWhatItStores(env, w.tables, plan.statement, plan.notes)
    ensures var plan := SendsReset(env, w, account, plain);
            SendsWhatItStores(env, w.tables, plan.statement, plan.notes)
  {
    var code, token := SendsCode(env, w, account, plain, flow), SendsReset(env, w, account, plain);
    assert CodeSent(Secret(account, w.tables.nextSerial), Issued(plain, code.statement.expiresAt)) in code.notes;
    assert ResetSent(Secret(account, w.tables.nextSerial), Issued(plain, token.statement.expiresAt)) in token.notes;
  }

  lemma OnlySendersStore(env: Env, w: World, step: Step, flow: Flow)
    requires NextPlan(env, w, step, flow).Some?
    ensures var plan := NextPlan(env, w, step, flow).value;
            && (plan.statement.PutCode? ==>
                  (step.FirstCode? || step.Resend?) &&
                  plan == SendsCode(env, w, plan.statement.account, step.code, plan.flow))
            && (plan.statement.PutReset? ==>
                  step.Forgot? && plan == SendsReset(env, w, plan.statement.account, step.token))
  {
  }

  lemma PlansSendWhatTheyStore(env: Env, w: World, step: Step, flow: Flow)
    requires NextPlan(env, w, step, flow).Some?
    ensures var plan := NextPlan(env, w, step, flow).value;
            SendsWhatItStores(env, w.tables, plan.statement, plan.notes)
  {
    var plan := NextPlan(env, w, step, flow).value;
    OnlySendersStore(env, w, step, flow);
    if plan.statement.PutCode? {
      SendingStores(env, w, plan.statement.account, step.code, plan.flow);
    } else if plan.statement.PutReset? {
      SendingStores(env, w, plan.statement.account, step.token, None);
    }
  }

  lemma CodeRowStaysIssued(env: Env, t: Tables, log: multiset<Note>, statement: Statement, notes: multiset<Note>,
                           account: AccountId)
    requires SendsWhatItStores(env, t, statement, notes)
    requires account in t.codes ==> CodeIsIssued(env, log, account, t.codes[account])
    requires account in CodesAfter(t, statement)
    ensures CodeIsIssued(env, log + notes, account, CodesAfter(t, statement)[account])
  {
    var row := CodesAfter(t, statement)[account];
    if statement.PutCode? && statement.account == account {
      CodeIssueLasts(env, notes, log, account, row);
      assert notes + log == log + notes;
    } else {
      CodeIssueLasts(env, log, notes, account, t.codes[account]);
      assert row.serial == t.codes[account].serial && row.hash == t.codes[account].hash &&
             row.expiresAt == t.codes[account].expiresAt;
    }
  }

  lemma ResetRowStaysIssued(env: Env, t: Tables, log: multiset<Note>, statement: Statement, notes: multiset<Note>,
                           account: AccountId)
    requires SendsWhatItStores(env, t, statement, notes)
    requires account in t.resets ==> ResetIsIssued(env, log, account, t.resets[account])
    requires account in ResetsAfter(t, statement)
    ensures ResetIsIssued(env, log + notes, account, ResetsAfter(t, statement)[account])
  {
    var row := ResetsAfter(t, statement)[account];
    if statement.PutReset? && statement.account == account {
      ResetIssueLasts(env, notes, log, account, row);
      assert notes + log == log + notes;
    } else {
      ResetIssueLasts(env, log, notes, account, t.resets[account]);
      assert row.serial == t.resets[account].serial && row.hash == t.resets[account].hash &&
             row.expiresAt == t.resets[account].expiresAt;
    }
  }

  /** A guess that hits is the code that was sent: hashes are injective. */
  lemma HitsAreTheSentCode(env: Env, log: multiset<Note>, account: AccountId, row: CodeRow, code: string, now: int)
    requires env.Valid() && CodeIsIssued(env, log, account, row)
    requires row.Usable(now, env.policy.maxAttempts) && row.hash == env.hashSecret(code)
    ensures var secret := Secret(account, row.serial);
            CodeWasGood(env, log + multiset{CodeAccepted(secret, code, now, row)}, secret, code, now)
  {
    var secret := Secret(account, row.serial);
    var plain :| CodeSent(secret, Issued(plain, row.expiresAt)) in log && row.hash == env.hashSecret(plain);
    assert plain == code;
    assert CodeWasAccepted(env, log + multiset{CodeAccepted(secret, code, now, row)}, secret, code, now, row);
  }

  lemma RedeemedIsTheSentToken(env: Env, log: multiset<Note>, account: AccountId, row: ResetRow, token: string,
                               now: int)
    requires env.Valid() && ResetIsIssued(env, log, account, row)
    requires row.Usable(now) && row.hash == env.hashSecret(token)
    ensures var secret := Secret(account, row.serial);
            ResetWasGood(env, log + multiset{ResetAccepted(secret, token, now, row)}, secret, token, now)
  {
    var secret := Secret(account, row.serial);
    var plain :| ResetSent(secret, Issued(plain, row.expiresAt)) in log && row.hash == env.hashSecret(plain);
    assert plain == token;
    assert ResetWasAccepted(env, log + multiset{ResetAccepted(secret, token, now, row)}, secret, token, now, row);
  }

  lemma OtherNextFlowsHaveProof(env: Env, w: World, step: Step, flow: Flow)
    requires ProofInv(env, w) && FlowHasProof(env, w.log, flow) && !flow.VerifyLoaded? && !flow.ResetLoaded?
    requires NextPlan(env, w, step, flow).Some? && NextPlan(env, w, step, flow).value.flow.Some?
    ensures FlowHasProof(env, w.log, NextPlan(env, w, step, flow).value.flow.value)
  {
    if flow.VerifyFound? {
      assert flow.account in w.tables.codes ==> CodeIsIssued(env, w.log, flow.account, w.tables.codes[flow.account]);
    }
  }

  lemma NextFlowHasProof(env: Env, w: World, step: Step, flow: Flow)
    requires env.Valid() && ProofInv(env, w) && FlowHasProof(env, w.log, flow)
    requires NextPlan(env, w, step, flow).Some? && NextPlan(env, w, step, flow).value.flow.Some?
    ensures var plan := NextPlan(env, w, step, flow).value; FlowHasProof(env, w.log + plan.notes, plan.flow.value)
  {
    var plan := NextPlan(env, w, step, flow).value;
    if flow.VerifyLoaded? {
      if plan.flow.value.VerifyHit? {
        HitsAreTheSentCode(env, w.log, flow.account, flow.codeRow, flow.code, w.now);
      }
    } else if flow.ResetLoaded? {
      RedeemedIsTheSentToken(env, w.log, flow.account, flow.resetRow, flow.token, w.now);
    } else {
      OtherNextFlowsHaveProof(env, w, step, flow);
      FlowKeepsProof(env, w.log, plan.notes, plan.flow.value);
    }
  }

  lemma StartedFlowHasProof(env: Env, w: World, step: Step)
    requires ProofInv(env, w) && StartPlan(env, w, step).Some?
    ensures var plan := StartPlan(env, w, step).value;
            && plan.flow.Some? && FlowHasProof(env, w.log, plan.flow.value)
            && !plan.statement.ConfirmUser? && !plan.statement.PutCode? && !plan.statement.PutReset?
            && plan.notes == multiset{}
  {
    if step.StartReset? {
      assert ResetIsIssued(env, w.log, step.account, w.tables.resets[step.account]);
    }
  }

  lemma ConfirmationHasProof(env: Env, w: World, step: Step, flow: Flow)
    requires FlowHasProof(env, w.log, flow)
    requires NextPlan(env, w, step, flow).Some? && NextPlan(env, w, step, flow).value.statement.ConfirmUser?
    ensures var plan := NextPlan(env, w, step, flow).value;
            HasProof(env, w.log + plan.notes, plan.statement.account)
  {
    var plan := NextPlan(env, w, step, flow).value;
    var secret, presented, at := flow.secret, flow.presented, flow.at;
    if flow.VerifyConsumed? {
      CodeStaysGood(env, w.log, plan.notes, secret, presented, at);
      assert ConfirmedByCode(secret.account, secret, presented, at) in w.log + plan.notes;
    } else {
      ResetStaysGood(env, w.log, plan.notes, secret, presented, at);
      assert ConfirmedByReset(secret.account, secret, presented, at) in w.log + plan.notes;
    }
  }

  lemma PlansHaveProof(env: Env, w: World, r: nat, step: Step)
    requires env.Valid() && ProofInv(env, w) && PlanOf(env, w, r, step).Some?
    ensures var plan := PlanOf(env, w, r, step).value;
            && (plan.flow.Some? ==> FlowHasProof(env, w.log + plan.notes, plan.flow.value))
            && (plan.statement.ConfirmUser? ==> HasProof(env, w.log + plan.notes, plan.statement.account))
  {
    var plan := PlanOf(env, w, r, step).value;
    if r in w.flows {
      var flow := w.flows[r];
      assert FlowHasProof(env, w.log, flow);
      if plan.flow.Some? {
        NextFlowHasProof(env, w, step, flow);
      }
      if plan.statement.ConfirmUser? {
        ConfirmationHasProof(env, w, step, flow);
      }
    } else {
      StartedFlowHasProof(env, w, step);
      FlowKeepsProof(env, w.log, plan.notes, plan.flow.value);
    }
  }

  lemma OnlyHoldersUse(env: Env, w: World, step: Step, flow: Flow, k: Secret)
    requires NextPlan(env, w, step, flow).Some?
    ensures var notes := NextPlan(env, w, step, flow).value.notes;
            && (CodeSession(k) in notes ==> flow.VerifyMarked? && flow.secret == k)
            && (PasswordReplaced(k) in notes ==> flow.ResetUsable? && flow.secret == k)
  {
  }

  lemma UseHasProof(env: Env, w: World, step: Step, flow: Flow, k: Secret)
    requires FlowHasProof(env, w.log, flow) && NextPlan(env, w, step, flow).Some?
    ensures var notes := NextPlan(env, w, step, flow).value.notes;
            && (CodeSession(k) in notes ==> CodeWasUsedWell(env, w.log, k))
            && (PasswordReplaced(k) in notes ==> ResetWasUsedWell(env, w.log, k))
  {
    OnlyHoldersUse(env, w, step, flow, k);
    assert flow.VerifyMarked? ==> CodeWasGood(env, w.log, flow.secret, flow.presented, flow.at);
    assert flow.ResetUsable? ==> ResetWasGood(env, w.log, flow.secret, flow.presented, flow.at);
  }

  lemma UsesStayGood(env: Env, w: World, r: nat, step: Step)
    requires ProofInv(env, w) && PlanOf(env, w, r, step).Some?
    ensures UsesWereGood(env, w.log + PlanOf(env, w, r, step).value.notes)
  {
    var notes := PlanOf(env, w, r, step).value.notes;
    forall k | CodeSession(k) in w.log + notes || PasswordReplaced(k) in w.log + notes
      ensures CodeSession(k) in w.log + notes ==> CodeWasUsedWell(env, w.log + notes, k)
      ensures PasswordReplaced(k) in w.log + notes ==> ResetWasUsedWell(env, w.log + notes, k)
    {
      if r in w.flows {
        UseHasProof(env, w, step, w.flows[r], k);
      } else {
        StartedFlowHasProof(env, w, step);
      }
      if CodeSession(k) in w.log + notes {
        var presented: string, at: int :| CodeWasGood(env, w.log, k, presented, at);
        CodeStaysGood(env, w.log, notes, k, presented, at);
      }
      if PasswordReplaced(k) in w.log + notes {
        var presented: string, at: int :| ResetWasGood(env, w.log, k, presented, at);
        ResetStaysGood(env, w.log, notes, k, presented, at);
      }
    }
  }

  lemma CarryingOutKeepsProofInv(env: Env, w: World, r: nat, step: Step)
    requires env.Valid() && ProofInv(env, w) && PlanOf(env, w, r, step).Some?
    ensures ProofInv(env, CarryOut(w, r, PlanOf(env, w, r, step).value))
  {
    var plan := PlanOf(env, w, r, step).value;
    var next := CarryOut(w, r, plan);
    if r in w.flows {
      PlansSendWhatTheyStore(env, w, step, w.flows[r]);
    } else {
      StartedFlowHasProof(env, w, step);
    }
    PlansHaveProof(env, w, r, step);
    PlansAddNewAccounts(env, w, r, step);
    UsesStayGood(env, w, r, step);
    forall a | a in next.tables.codes ensures CodeIsIssued(env, next.log, a, next.tables.codes[a]) {
      CodeRowStaysIssued(env, w.tables, w.log, plan.statement, plan.notes, a);
    }
    forall a | a in next.tables.resets ensures ResetIsIssued(env, next.log, a, next.tables.resets[a]) {
      ResetRowStaysIssued(env, w.tables, w.log, plan.statement, plan.notes, a);
    }
    forall q | q in next.flows ensures FlowHasProof(env, next.log, next.flows[q]) {
      if q != r {
        FlowKeepsProof(env, w.log, plan.notes, w.flows[q]);
      }
    }
    forall a | next.tables.Verified(a) ensures HasProof(env, next.log, a) {
      if w.tables.Verified(a) {
        AccountKeepsProof(env, w.log, plan.notes, a);
      } else if a in w.tables.users {
        StatementsKeepAccounts(w.tables, plan.statement, a);
      }
    }
  }

  lemma StepKeepsProofInv(env: Env, w: World, step: Step)
    requires env.Valid() && ProofInv(env, w)
    ensures ProofInv(env, Do(env, w, step))
  {
    if step.SetZone? {
      forall a | a in w.tables.users {
        StatementsKeepAccounts(w.tables, SetOffset(step.account, step.offset), a);
      }
    } else if !step.Tick? && PlanOf(env, w, step.r, step).Some? {
      CarryingOutKeepsProofInv(env, w, step.r, step);
    }
  }

  /**
   In every interleaving a verified account owes it to a secret that was
   emailed to that very account, and presented exactly while the row loaded for
   it was usable; and so does every session opened by a code and every password
   replaced by a token.
   */
  lemma {:induction false} VerifiedAccountsHaveProof(env: Env, steps: seq<Step>)
    requires env.Valid()
    ensures ProofInv(env, RunSteps(env, steps))
    ensures forall a :: RunSteps(env, steps).tables.Verified(a) ==> HasProof(env, RunSteps(env, steps).log, a)
    ensures UsesWereGood(env, RunSteps(env, steps).log)
  {
    if steps != [] {
      VerifiedAccountsHaveProof(env, steps[..|steps| - 1]);
      StepKeepsProofInv(env, RunSteps(env, steps[..|steps| - 1]), steps[|steps| - 1]);
    }
  }

  /** In every interleaving: what replaced a password was emailed to its account, and accepted before it expired. */
  lemma ReplacementsAreInTime(env: Env, steps: seq<Step>, k: Secret)
    requires env.Valid() && PasswordReplaced(k) in RunSteps(env, steps).log
    ensures exists token: string, at: int, expiresAt: int, row: ResetRow ::
              && ResetSent(k, Issued(token, expiresAt)) in RunSteps(env, steps).log
              && ResetAccepted(k, token, at, row) in RunSteps(env, steps).log && at < expiresAt
  {
    var log := RunSteps(env, steps).log;
    VerifiedAccountsHaveProof(env, steps);
    var token: string, at: int :| ResetWasGood(env, log, k, token, at);
    var row :| ResetWasAccepted(env, log, k, token, at, row);
    assert ResetSent(k, Issued(token, row.expiresAt)) in log && ResetAccepted(k, token, at, row) in log;
  }

  /** And so was every code that opened a session, with an attempt left. */
  lemma SessionsAreInTime(env: Env, steps: seq<Step>, k: Secret)
    requires env.Valid() && CodeSession(k) in RunSteps(env, steps).log
    ensures exists code: string, at: int, expiresAt: int, row: CodeRow ::
              && CodeSent(k, Issued(code, expiresAt)) in RunSteps(env, steps).log
              && CodeAccepted(k, code, at, row) in RunSteps(env, steps).log && at < expiresAt
              && row.attempts < env.policy.maxAttempts
  {
    var log := RunSteps(env, steps).log;
    VerifiedAccountsHaveProof(env, steps);
    var code: string, at: int :| CodeWasGood(env, log, k, code, at);
    var row :| CodeWasAccepted(env, log, k, code, at, row);
    assert CodeSent(k, Issued(code, row.expiresAt)) in log && CodeAccepted(k, code, at, row) in log;
  }

  lemma OnlyOneStatementSetsPasswords(t: Tables, statement: Statement, account: AccountId)
    requires account in t.users && (statement.AddUser? ==> statement.account !in t.users)
    ensures UsersAfter(t, statement)[account].passwordHash != t.users[account].passwordHash ==>
              statement == SetPassword(account, UsersAfter(t, statement)[account].passwordHash)
  {
  }

  lemma OnlyRedeemersSetPasswords(env: Env, w: World, step: Step, flow: Flow)
    requires NextPlan(env, w, step, flow).Some? && NextPlan(env, w, step, flow).value.statement.SetPassword?
    ensures step.ReplacePassword? && flow.ResetUsable?
    ensures NextPlan(env, w, step, flow).value.statement == SetPassword(flow.secret.account, flow.newHash)
    ensures NextPlan(env, w, step, flow).value.notes == multiset{PasswordReplaced(flow.secret)}
  {
  }

  /** The flow is a redeemer of this account, and these are the hash and the note it leaves. */
  ghost predicate Redeems(flow: Flow, account: AccountId, hash: string, notes: multiset<Note>) {
    flow.ResetUsable? && flow.secret.account == account && flow.newHash == hash &&
    notes == multiset{PasswordReplaced(flow.secret)}
  }

  lemma PlansReplacePasswords(env: Env, w: World, r: nat, step: Step, account: AccountId)
    requires PlanOf(env, w, r, step).Some? && account in w.tables.users
    ensures var plan := PlanOf(env, w, r, step).value;
            var hash := UsersAfter(w.tables, plan.statement)[account].passwordHash;
            hash != w.tables.users[account].passwordHash ==>
              step.ReplacePassword? && r in w.flows && Redeems(w.flows[r], account, hash, plan.notes)
  {
    var statement := PlanOf(env, w, r, step).value.statement;
    PlansAddNewAccounts(env, w, r, step);
    OnlyOneStatementSetsPasswords(w.tables, statement, account);
    if r in w.flows && statement.SetPassword? {
      OnlyRedeemersSetPasswords(env, w, step, w.flows[r]);
    }
  }

  /** The password of this account is the same in both worlds, or its redeemer's step is in the log of the second. */
  ghost predicate ReplacementIsNoted(w: World, next: World, step: Step, account: AccountId)
    requires account in w.tables.users && account in next.tables.users
  {
    next.tables.users[account].passwordHash != w.tables.users[account].passwordHash ==>
      exists notes :: next.log == w.log + notes && step.ReplacePassword? && step.r in w.flows &&
                      Redeems(w.flows[step.r], account, next.tables.users[account].passwordHash, notes)
  }

  lemma CarryingOutNotesReplacements(env: Env, w: World, step: Step, account: AccountId)
    requires !step.Tick? && !step.SetZone? && PlanOf(env, w, step.r, step).Some? && account in w.tables.users
    ensures var next := CarryOut(w, step.r, PlanOf(env, w, step.r, step).value);
            account in next.tables.users && ReplacementIsNoted(w, next, step, account)
  {
    var plan := PlanOf(env, w, step.r, step).value;
    PlansAddNewAccounts(env, w, step.r, step);
    StatementsKeepAccounts(w.tables, plan.statement, account);
    PlansReplacePasswords(env, w, step.r, step, account);
    assert CarryOut(w, step.r, plan).log == w.log + plan.notes;
  }

  /** A stored password changes in one step only, by a token of that account, and that step is noted. */
  lemma OnlyTokensReplacePasswords(env: Env, w: World, step: Step, account: AccountId)
    requires account in w.tables.users
    ensures var next := Do(env, w, step);
            account in next.tables.users && ReplacementIsNoted(w, next, step, account)
  {
    if step.SetZone? {
      OnlyOneStatementSetsPasswords(w.tables, SetOffset(step.account, step.offset), account);
    } else if !step.Tick? && PlanOf(env, w, step.r, step).Some? {
      CarryingOutNotesReplacements(env, w, step, account);
    }
  }

  // ---- An UPDATE that changes nothing is refused ----

  lemma PlansChangeTheRow(env: Env, w: World, step: Step, flow: Flow, k: Secret)
    requires NextPlan(env, w, step, flow).Some?
    ensures var plan := NextPlan(env, w, step, flow).value;
            && (PasswordReplaced(k) in plan.notes ==>
                  plan.statement.SetPassword? && plan.statement.account == k.account && k.account in w.tables.users &&
                  plan.statement.hash != w.tables.users[k.account].passwordHash)
            && (forall presented: string, at: int :: ConfirmedByCode(k.account, k, presented, at) in plan.notes ==>
                  plan.statement == ConfirmUser(k.account, at) && k.account in w.tables.users &&
                  w.tables.users[k.account].verifiedAt != Some(at))
  {
  }

  /** A step that notes a replacement changed the stored hash. */
  lemma ReplacementsChangeThePassword(env: Env, w: World, step: Step, k: Secret)
    requires !step.Tick? && !step.SetZone? && step.r in w.flows && PlanOf(env, w, step.r, step).Some?
    requires PasswordReplaced(k) in PlanOf(env, w, step.r, step).value.notes
    ensures var next := CarryOut(w, step.r, PlanOf(env, w, step.r, step).value);
            && k.account in w.tables.users && k.account in next.tables.users
            && next.tables.users[k.account].passwordHash != w.tables.users[k.account].passwordHash
  {
    PlansChangeTheRow(env, w, step, w.flows[step.r], k);
  }

  /** A step that notes a confirmation by a code changed the stored stamp, to the instant of the check. */
  lemma ConfirmationsChangeTheStamp(env: Env, w: World, step: Step, k: Secret, presented: string, at: int)
    requires !step.Tick? && !step.SetZone? && step.r in w.flows && PlanOf(env, w, step.r, step).Some?
    requires ConfirmedByCode(k.account, k, presented, at) in PlanOf(env, w, step.r, step).value.notes
    ensures var next := CarryOut(w, step.r, PlanOf(env, w, step.r, step).value);
            && k.account in w.tables.users && k.account in next.tables.users
            && w.tables.users[k.account].verifiedAt != Some(at) == next.tables.users[k.account].verifiedAt
  {
    PlansChangeTheRow(env, w, step, w.flows[step.r], k);
  }
}
