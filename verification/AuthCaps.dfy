/**
 How often one issued secret can be guessed at or used, over every
 interleaving. The reads, comparisons and writes of a request are separate
 steps and a newer secret may replace the row between any two of them, so each
 bound is kept by an invariant that also counts the requests in flight.
 */
module AuthCaps {
  import opened Wrappers
  import opened AuthStore
  import opened AuthProtocol
  import AuthGate

  // ---- Serial numbers are never reused ----

  ghost predicate FlowIsDated(flow: Flow, nextSerial: nat) {
    match flow
    case VerifyFound(_, _) => true
    case VerifyLoaded(_, _, codeRow) => codeRow.serial < nextSerial
    case LoginAllowed(_, _) => true
    case LoginRecorded(_) => true
    case ActivityFound(_, _) => true
    case Registered(_) => true
    case RegisteredWithCode(_) => true
    case ResendFound(_) => true
    case ForgotFound(_) => true
    case ResetLoaded(_, _, resetRow, _) => resetRow.serial < nextSerial
    case _ => flow.secret.serial < nextSerial
  }

  ghost predicate NoteIsDated(note: Note, nextSerial: nat) {
    note.TokenIssued? || note.secret.serial < nextSerial
  }

  ghost predicate Dated(w: World) {
    && (forall a :: a in w.tables.codes ==> w.tables.codes[a].serial < w.tables.nextSerial)
    && (forall a :: a in w.tables.resets ==> w.tables.resets[a].serial < w.tables.nextSerial)
    && (forall r :: r in w.flows ==> FlowIsDated(w.flows[r], w.tables.nextSerial))
    && (forall note :: note in w.log ==> NoteIsDated(note, w.tables.nextSerial))
  }

  lemma NextFlowsAreDated(env: Env, w: World, step: Step, flow: Flow)
    requires Dated(w) && FlowIsDated(flow, w.tables.nextSerial)
    requires NextPlan(env, w, step, flow).Some? && NextPlan(env, w, step, flow).value.flow.Some?
    ensures FlowIsDated(NextPlan(env, w, step, flow).value.flow.value, w.tables.nextSerial)
  {
  }

  /** The requests whose next step stores a fresh secret. */
  predicate Sends(flow: Flow) {
    flow.Registered? || flow.ResendFound? || flow.ForgotFound?
  }

  lemma SendersNotesAreDated(env: Env, w: World, step: Step, flow: Flow, note: Note)
    requires Sends(flow) && NextPlan(env, w, step, flow).Some?
    requires note in NextPlan(env, w, step, flow).value.notes
    ensures NoteIsDated(note, Execute(w.tables, NextPlan(env, w, step, flow).value.statement).nextSerial)
  {
  }

  lemma OtherNotesAreDated(env: Env, w: World, step: Step, flow: Flow, note: Note)
    requires FlowIsDated(flow, w.tables.nextSerial) && !Sends(flow) && NextPlan(env, w, step, flow).Some?
    requires note in NextPlan(env, w, step, flow).value.notes
    ensures NoteIsDated(note, w.tables.nextSerial)
  {
  }

  lemma NextNotesAreDated(env: Env, w: World, step: Step, flow: Flow, note: Note)
    requires FlowIsDated(flow, w.tables.nextSerial) && NextPlan(env, w, step, flow).Some?
    requires note in NextPlan(env, w, step, flow).value.notes
    ensures NoteIsDated(note, Execute(w.tables, NextPlan(env, w, step, flow).value.statement).nextSerial)
  {
    if Sends(flow) {
      SendersNotesAreDated(env, w, step, flow, note);
    } else {
      OtherNotesAreDated(env, w, step, flow, note);
    }
  }

  lemma StartPlansAreDated(env: Env, w: World, step: Step)
    requires Dated(w) && StartPlan(env, w, step).Some?
    ensures var plan := StartPlan(env, w, step).value;
            (plan.flow.Some? ==> FlowIsDated(plan.flow.value, w.tables.nextSerial)) && plan.notes == multiset{}
  {
  }

  lemma RowsAreDated(t: Tables, statement: Statement, account: AccountId)
    requires account in t.codes ==> t.codes[account].serial < t.nextSerial
    requires account in t.resets ==> t.resets[account].serial < t.nextSerial
    ensures var next := Execute(t, statement);
            && t.nextSerial <= next.nextSerial
            && (account in next.codes ==> next.codes[account].serial < next.nextSerial)
            && (account in next.resets ==> next.resets[account].serial < next.nextSerial)
  {
  }

  lemma FlowsStayDated(flow: Flow, serial: nat, later: nat)
    requires FlowIsDated(flow, serial) && serial <= later
    ensures FlowIsDated(flow, later)
  {
  }

  lemma CarryingOutKeepsDated(w: World, r: nat, plan: Plan)
    requires Dated(w)
    requires plan.flow.Some? ==> FlowIsDated(plan.flow.value, w.tables.nextSerial)
    requires forall note :: note in plan.notes ==> NoteIsDated(note, Execute(w.tables, plan.statement).nextSerial)
    ensures Dated(CarryOut(w, r, plan))
  {
    var next := CarryOut(w, r, plan);
    forall a: AccountId
      ensures a in next.tables.codes ==> next.tables.codes[a].serial < next.tables.nextSerial
      ensures a in next.tables.resets ==> next.tables.resets[a].serial < next.tables.nextSerial
    {
      RowsAreDated(w.tables, plan.statement, a);
    }
    forall q | q in next.flows ensures FlowIsDated(next.flows[q], next.tables.nextSerial) {
      FlowsStayDated(next.flows[q], w.tables.nextSerial, next.tables.nextSerial);
    }
    forall note | note in next.log ensures NoteIsDated(note, next.tables.nextSerial) {
      assert note in w.log || note in plan.notes;
    }
  }

  lemma StepKeepsDated(env: Env, w: World, step: Step)
    requires Dated(w)
    ensures Dated(Do(env, w, step))
  {
    if !step.Tick? && !step.SetZone? && PlanOf(env, w, step.r, step).Some? {
      if step.r in w.flows {
        var flow := w.flows[step.r];
        forall note | note in NextPlan(env, w, step, flow).value.notes {
          NextNotesAreDated(env, w, step, flow, note);
        }
        if NextPlan(env, w, step, flow).value.flow.Some? {
          NextFlowsAreDated(env, w, step, flow);
        }
      } else {
        StartPlansAreDated(env, w, step);
      }
      CarryingOutKeepsDated(w, step.r, PlanOf(env, w, step.r, step).value);
    }
  }

  // ---- What a statement does to the row of one secret ----

  /** The secret is the one its account has now. */
  predicate CodeIsCurrent(t: Tables, k: Secret) {
    k.account in t.codes && t.codes[k.account].serial == k.serial
  }

  predicate ResetIsCurrent(t: Tables, k: Secret) {
    k.account in t.resets && t.resets[k.account].serial == k.serial
  }

  /** A code becomes current by being stored under a serial never used before; a replaced one never returns. */
  lemma CodeRowMoves(t: Tables, statement: Statement, k: Secret)
    requires CodeIsCurrent(Execute(t, statement), k)
    ensures var row := Execute(t, statement).codes[k.account];
            || (statement.PutCode? && statement.account == k.account && k.serial == t.nextSerial &&
                row.consumedAt.None?)
            || (CodeIsCurrent(t, k) &&
                row.attempts ==
                t.codes[k.account].attempts + Bit(statement.MissCode? && statement.account == k.account) &&
                (row.consumedAt.Some? <==>
                   t.codes[k.account].consumedAt.Some? || (statement.SpendCode? && statement.account == k.account)))
  {
  }

  lemma ResetRowMoves(t: Tables, statement: Statement, k: Secret)
    requires ResetIsCurrent(Execute(t, statement), k)
    ensures var row := Execute(t, statement).resets[k.account];
            || (statement.PutReset? && statement.account == k.account && k.serial == t.nextSerial)
            || (ResetIsCurrent(t, k) &&
                (row.consumedAt.Some? <==>
                   t.resets[k.account].consumedAt.Some? || (statement.SpendReset? && statement.account == k.account)))
  {
  }

  // ---- Requests in flight stay within the limits ----

  ghost predicate WithinLimits(env: Env, w: World, account: AccountId) {
    Tally(w.flows, Verifying(account)) <= env.verifyLimit && Tally(w.flows, Resetting(account)) <= env.resetLimit
  }

  lemma NoRequestChangesKind(env: Env, w: World, step: Step, flow: Flow)
    requires NextPlan(env, w, step, flow).Some? && NextPlan(env, w, step, flow).value.flow.Some?
    ensures var next := NextPlan(env, w, step, flow).value.flow.value;
            (next.Verifies() <==> flow.Verifies()) && (next.Resets() <==> flow.Resets())
  {
  }

  lemma RequestsStartWithinLimits(env: Env, w: World, step: Step, account: AccountId)
    requires StartPlan(env, w, step).Some?
    ensures var plan := StartPlan(env, w, step).value;
            && plan.flow.Some?
            && (Verifying(account)(plan.flow.value) ==> Tally(w.flows, Verifying(account)) < env.verifyLimit)
            && (Resetting(account)(plan.flow.value) ==> Tally(w.flows, Resetting(account)) < env.resetLimit)
  {
  }

  lemma StepKeepsLimits(env: Env, w: World, step: Step, account: AccountId)
    requires WithinLimits(env, w, account)
    ensures WithinLimits(env, Do(env, w, step), account)
  {
    if !step.Tick? && !step.SetZone? && PlanOf(env, w, step.r, step).Some? {
      var plan := PlanOf(env, w, step.r, step).value;
      TallyMoves(w.flows, step.r, plan.flow, Verifying(account));
      TallyMoves(w.flows, step.r, plan.flow, Resetting(account));
      if step.r !in w.flows {
        RequestsStartWithinLimits(env, w, step, account);
      } else if plan.flow.Some? {
        NoRequestChangesKind(env, w, step, w.flows[step.r]);
        AuthGate.RequestsKeepTheirAccount(env, w, step, w.flows[step.r]);
      }
    }
  }

  // ---- Wrong guesses at one code ----

  /** A request that loaded this code while an attempt was left, and has not compared yet. */
  function Guessing(env: Env, k: Secret): Flow -> bool {
    (flow: Flow) => flow.VerifyLoaded? && Secret(flow.account, flow.codeRow.serial) == k &&
                    flow.codeRow.attempts < env.policy.maxAttempts
  }

  /** A request that guessed wrong and has not recorded it yet. */
  function Missing(k: Secret): Flow -> bool {
    (flow: Flow) => flow == VerifyMissed(k)
  }

  ghost predicate GuessInv(env: Env, w: World, k: Secret) {
    && (CodeIsCurrent(w.tables, k) ==>
          w.log[WrongGuess(k)] <= w.tables.codes[k.account].attempts + Tally(w.flows, Missing(k)) + w.log[MissLost(k)])
    && w.log[WrongGuess(k)] + Tally(w.flows, Guessing(env, k)) <=
       env.policy.maxAttempts - 1 + env.verifyLimit + w.log[MissLost(k)]
  }

  /** The plan has nothing to do with guesses at this code. */
  ghost predicate GuessesNothing(env: Env, plan: Plan, k: Secret) {
    && plan.notes[WrongGuess(k)] == 0 && plan.notes[MissLost(k)] == 0 && !plan.statement.MissCode?
    && (plan.flow.Some? ==> !Guessing(env, k)(plan.flow.value) && !Missing(k)(plan.flow.value))
  }

  lemma OtherFlowsGuessNothing(env: Env, w: World, step: Step, flow: Flow, k: Secret)
    requires NextPlan(env, w, step, flow).Some? && NextPlan(env, w, step, flow).value.flow.Some?
    requires !flow.VerifyFound? && !flow.VerifyLoaded?
    ensures var next := NextPlan(env, w, step, flow).value.flow.value; !Guessing(env, k)(next) && !Missing(k)(next)
  {
  }

  lemma OtherNotesAreNoGuesses(env: Env, w: World, step: Step, flow: Flow, k: Secret)
    requires NextPlan(env, w, step, flow).Some? && !flow.VerifyLoaded? && !flow.VerifyMissed?
    ensures var plan := NextPlan(env, w, step, flow).value;
            plan.notes[WrongGuess(k)] == 0 && plan.notes[MissLost(k)] == 0 && !plan.statement.MissCode?
  {
  }

  lemma OtherPlansGuessNothing(env: Env, w: World, step: Step, flow: Flow, k: Secret)
    requires NextPlan(env, w, step, flow).Some?
    requires !flow.VerifyFound? && !flow.VerifyLoaded? && !flow.VerifyMissed?
    ensures GuessesNothing(env, NextPlan(env, w, step, flow).value, k)
    ensures !Guessing(env, k)(flow) && !Missing(k)(flow)
  {
    OtherNotesAreNoGuesses(env, w, step, flow, k);
    if NextPlan(env, w, step, flow).value.flow.Some? {
      OtherFlowsGuessNothing(env, w, step, flow, k);
    }
  }

  lemma StartPlansGuessNothing(env: Env, w: World, step: Step, k: Secret)
    requires StartPlan(env, w, step).Some?
    ensures GuessesNothing(env, StartPlan(env, w, step).value, k)
  {
  }

  lemma LoadingMayGuess(env: Env, w: World, step: Step, flow: Flow, k: Secret)
    requires flow.VerifyFound? && NextPlan(env, w, step, flow).Some?
    ensures !Guessing(env, k)(flow) && !Missing(k)(flow)
    ensures var plan := NextPlan(env, w, step, flow).value;
            || GuessesNothing(env, plan, k)
            || (CodeIsCurrent(w.tables, k) && w.tables.codes[k.account].attempts < env.policy.maxAttempts &&
                plan == Goes(VerifyLoaded(k.account, flow.code, w.tables.codes[k.account])))
  {
  }

  lemma ComparingGuessesOnce(env: Env, w: World, step: Step, flow: Flow, k: Secret)
    requires flow.VerifyLoaded? && NextPlan(env, w, step, flow).Some?
    ensures !Missing(k)(flow)
    ensures var plan := NextPlan(env, w, step, flow).value;
            || GuessesNothing(env, plan, k)
            || (Guessing(env, k)(flow) && plan == Plan(Some(VerifyMissed(k)), NoStatement, multiset{WrongGuess(k)}))
  {
  }

  lemma MissesAreRecordedOrLost(env: Env, w: World, step: Step, flow: Flow, k: Secret)
    requires flow.VerifyMissed? && NextPlan(env, w, step, flow).Some?
    ensures !Guessing(env, k)(flow)
    ensures var plan := NextPlan(env, w, step, flow).value;
            || plan == Plan(None, MissCode(flow.secret.account), multiset{})
            || plan == Plan(None, NoStatement, multiset{MissLost(flow.secret)})
  {
  }

  /** The five things a plan of request r can do to the guesses at this code. */
  ghost predicate GuessesMove(env: Env, w: World, r: nat, plan: Plan, k: Secret) {
    var guessing, missing := r in w.flows && Guessing(env, k)(w.flows[r]), r in w.flows && Missing(k)(w.flows[r]);
    || (GuessesNothing(env, plan, k) && !missing)
    || (!guessing && !missing && CodeIsCurrent(w.tables, k) &&
        w.tables.codes[k.account].attempts < env.policy.maxAttempts &&
        plan.notes == multiset{} && plan.statement == NoStatement && plan.flow.Some? && !Missing(k)(plan.flow.value))
    || (guessing && !missing && plan == Plan(Some(VerifyMissed(k)), NoStatement, multiset{WrongGuess(k)}))
    || (!guessing && plan.flow == None && plan.notes == multiset{} && plan.statement.MissCode? &&
        (missing ==> plan.statement.account == k.account))
    || (!guessing && plan.flow == None && plan.notes[WrongGuess(k)] == 0 && plan.statement == NoStatement &&
        plan.notes[MissLost(k)] == Bit(missing))
  }

  lemma PlansMoveGuesses(env: Env, w: World, r: nat, step: Step, k: Secret)
    requires PlanOf(env, w, r, step).Some?
    ensures GuessesMove(env, w, r, PlanOf(env, w, r, step).value, k)
  {
    if r !in w.flows {
      StartPlansGuessNothing(env, w, step, k);
    } else {
      var flow := w.flows[r];
      if flow.VerifyFound? {
        LoadingMayGuess(env, w, step, flow, k);
      } else if flow.VerifyLoaded? {
        ComparingGuessesOnce(env, w, step, flow, k);
      } else if flow.VerifyMissed? {
        MissesAreRecordedOrLost(env, w, step, flow, k);
      } else {
        OtherPlansGuessNothing(env, w, step, flow, k);
      }
    }
  }

  lemma CarryingOutKeepsGuessInv(env: Env, w: World, r: nat, plan: Plan, k: Secret)
    requires Dated(w) && GuessInv(env, w, k) && GuessesMove(env, w, r, plan, k)
    requires WithinLimits(env, CarryOut(w, r, plan), k.account)
    ensures GuessInv(env, CarryOut(w, r, plan), k)
  {
    var next := CarryOut(w, r, plan);
    TallyMoves(w.flows, r, plan.flow, Guessing(env, k));
    TallyMoves(w.flows, r, plan.flow, Missing(k));
    TallyParts(next.flows, Guessing(env, k), Missing(k), Verifying(k.account));
    assert WrongGuess(k) in w.log ==> NoteIsDated(WrongGuess(k), w.tables.nextSerial);
    if CodeIsCurrent(next.tables, k) {
      CodeRowMoves(w.tables, plan.statement, k);
    }
  }

  // ---- Sessions opened by one code ----

  /** A request that may still spend this code: it saw it unspent. */
  function Spending(k: Secret): Flow -> bool {
    (flow: Flow) => (flow.VerifyLoaded? && Secret(flow.account, flow.codeRow.serial) == k &&
        flow.codeRow.consumedAt.None?) ||
                    (flow.VerifyHit? && flow.secret == k)
  }

  /** A request that has spent this code and has not opened its session. */
  function Opening(k: Secret): Flow -> bool {
    (flow: Flow) => (flow.VerifyConsumed? || flow.VerifyMarked?) && flow.secret == k
  }

  ghost predicate SessionInv(env: Env, w: World, k: Secret) {
    && (CodeIsCurrent(w.tables, k) && CodeSpent(k) in w.log ==> w.tables.codes[k.account].consumedAt.Some?)
    && w.log[CodeSpent(k)] + Tally(w.flows, Spending(k)) <= env.verifyLimit
    && w.log[CodeSession(k)] + Tally(w.flows, Opening(k)) <= w.log[CodeSpent(k)]
  }

  ghost predicate SpendsNothing(plan: Plan, k: Secret) {
    && plan.notes[CodeSpent(k)] == 0 && plan.notes[CodeSession(k)] == 0
    && (plan.flow.Some? ==> !Spending(k)(plan.flow.value) && !Opening(k)(plan.flow.value))
  }

  lemma OtherPlansSpendNothing(env: Env, w: World, step: Step, flow: Flow, k: Secret)
    requires NextPlan(env, w, step, flow).Some? && !flow.Verifies()
    ensures SpendsNothing(NextPlan(env, w, step, flow).value, k) && !Spending(k)(flow) && !Opening(k)(flow)
  {
    if NextPlan(env, w, step, flow).value.flow.Some? {
      NoRequestChangesKind(env, w, step, flow);
    }
  }

  lemma StartPlansSpendNothing(env: Env, w: World, step: Step, k: Secret)
    requires StartPlan(env, w, step).Some?
    ensures SpendsNothing(StartPlan(env, w, step).value, k)
  {
  }

  lemma LoadingMaySpend(env: Env, w: World, step: Step, flow: Flow, k: Secret)
    requires (flow.VerifyFound? || flow.VerifyMissed?) && NextPlan(env, w, step, flow).Some?
    ensures !Spending(k)(flow) && !Opening(k)(flow)
    ensures var plan := NextPlan(env, w, step, flow).value;
            || SpendsNothing(plan, k)
            || (CodeIsCurrent(w.tables, k) && w.tables.codes[k.account].consumedAt.None? && flow.VerifyFound? &&
                plan == Goes(VerifyLoaded(k.account, flow.code, w.tables.codes[k.account])))
  {
  }

  lemma SpendingIsOnce(env: Env, w: World, step: Step, flow: Flow, k: Secret)
    requires (flow.VerifyLoaded? || flow.VerifyHit?) && NextPlan(env, w, step, flow).Some?
    ensures !Opening(k)(flow)
    ensures var plan := NextPlan(env, w, step, flow).value;
            || SpendsNothing(plan, k)
            || (Spending(k)(flow) && plan.notes[CodeSpent(k)] == 0 && plan.notes[CodeSession(k)] == 0 &&
                plan.statement.NoStatement? &&
                plan.flow.Some? && Spending(k)(plan.flow.value) && !Opening(k)(plan.flow.value))
            || (Spending(k)(flow) && plan.notes == multiset{CodeSpent(k)} &&
                plan.statement.SpendCode? && plan.statement.account == k.account &&
                plan.flow.Some? && Opening(k)(plan.flow.value) && !Spending(k)(plan.flow.value))
  {
  }

  lemma OpeningIsOnce(env: Env, w: World, step: Step, flow: Flow, k: Secret)
    requires (flow.VerifyConsumed? || flow.VerifyMarked?) && NextPlan(env, w, step, flow).Some?
    ensures !Spending(k)(flow)
    ensures var plan := NextPlan(env, w, step, flow).value;
            && plan.notes[CodeSpent(k)] == 0
            && (plan.flow.Some? ==> !Spending(k)(plan.flow.value))
            && plan.notes[CodeSession(k)] + Bit(plan.flow.Some? && Opening(k)(plan.flow.value)) <= Bit(Opening(k)(flow))
  {
  }

  /** The plan spends this code only for a request that may, and opens no more sessions than spendings. */
  ghost predicate SpendsInTurn(w: World, r: nat, plan: Plan, k: Secret) {
    && plan.notes[CodeSession(k)] + Bit(plan.flow.Some? && Opening(k)(plan.flow.value)) <=
       plan.notes[CodeSpent(k)] + Bit(r in w.flows && Opening(k)(w.flows[r]))
    && (plan.notes[CodeSpent(k)] > 0 ==> plan.statement.SpendCode? && plan.statement.account == k.account)
    && (|| plan.notes[CodeSpent(k)] + Bit(plan.flow.Some? && Spending(k)(plan.flow.value)) <=
           Bit(r in w.flows && Spending(k)(w.flows[r]))
        || (plan.notes[CodeSpent(k)] == 0 && CodeIsCurrent(w.tables, k) &&
            w.tables.codes[k.account].consumedAt.None?))
  }

  lemma PlansSpendInTurn(env: Env, w: World, r: nat, step: Step, k: Secret)
    requires PlanOf(env, w, r, step).Some?
    ensures SpendsInTurn(w, r, PlanOf(env, w, r, step).value, k)
  {
    if r !in w.flows {
      StartPlansSpendNothing(env, w, step, k);
    } else {
      var flow := w.flows[r];
      if flow.VerifyFound? || flow.VerifyMissed? {
        LoadingMaySpend(env, w, step, flow, k);
      } else if flow.VerifyLoaded? || flow.VerifyHit? {
        SpendingIsOnce(env, w, step, flow, k);
      } else if flow.VerifyConsumed? || flow.VerifyMarked? {
        OpeningIsOnce(env, w, step, flow, k);
      } else {
        OtherPlansSpendNothing(env, w, step, flow, k);
      }
    }
  }

  lemma CarryingOutKeepsSessionInv(env: Env, w: World, r: nat, plan: Plan, k: Secret)
    requires Dated(w) && SessionInv(env, w, k) && SpendsInTurn(w, r, plan, k)
    requires WithinLimits(env, CarryOut(w, r, plan), k.account)
    ensures SessionInv(env, CarryOut(w, r, plan), k)
  {
    var next := CarryOut(w, r, plan);
    TallyMoves(w.flows, r, plan.flow, Spending(k));
    TallyMoves(w.flows, r, plan.flow, Opening(k));
    TallyParts(next.flows, Spending(k), Opening(k), Verifying(k.account));
    assert CodeSpent(k) in w.log ==> NoteIsDated(CodeSpent(k), w.tables.nextSerial);
    if CodeIsCurrent(next.tables, k) {
      CodeRowMoves(w.tables, plan.statement, k);
    }
  }

  // ---- Passwords replaced by one reset token ----

  /** A request that may still replace the password: it saw this token unspent. */
  function Redeeming(k: Secret): Flow -> bool {
    (flow: Flow) => (flow.ResetLoaded? && Secret(flow.account, flow.resetRow.serial) == k &&
        flow.resetRow.consumedAt.None?) ||
                    (flow.ResetUsable? && flow.secret == k)
  }

  /** A request that has replaced the password and not yet spent this token. */
  function Replaced(k: Secret): Flow -> bool {
    (flow: Flow) => flow.ResetReplaced? && flow.secret == k
  }

  ghost predicate ResetInv(env: Env, w: World, k: Secret) {
    && (ResetIsCurrent(w.tables, k) && w.tables.resets[k.account].consumedAt.None? ==>
          w.log[PasswordReplaced(k)] <= Tally(w.flows, Replaced(k)) + w.log[SpendLost(k)])
    && w.log[PasswordReplaced(k)] + Tally(w.flows, Redeeming(k)) <= env.resetLimit + w.log[SpendLost(k)]
  }

  ghost predicate RedeemsNothing(plan: Plan, k: Secret) {
    && plan.notes[PasswordReplaced(k)] == 0 && plan.notes[SpendLost(k)] == 0
    && (plan.flow.Some? ==> !Redeeming(k)(plan.flow.value) && !Replaced(k)(plan.flow.value))
  }

  lemma OtherFlowsRedeemNothing(env: Env, w: World, step: Step, flow: Flow, k: Secret)
    requires NextPlan(env, w, step, flow).Some? && NextPlan(env, w, step, flow).value.flow.Some?
    requires !flow.ResetLoaded? && !flow.ResetUsable?
    ensures var next := NextPlan(env, w, step, flow).value.flow.value; !Redeeming(k)(next) && !Replaced(k)(next)
  {
  }

  lemma OtherPlansRedeemNothing(env: Env, w: World, step: Step, flow: Flow, k: Secret)
    requires NextPlan(env, w, step, flow).Some? && !flow.ResetLoaded? && !flow.ResetUsable? && !flow.ResetReplaced?
    ensures RedeemsNothing(NextPlan(env, w, step, flow).value, k) && !Redeeming(k)(flow) && !Replaced(k)(flow)
  {
    if NextPlan(env, w, step, flow).value.flow.Some? {
      OtherFlowsRedeemNothing(env, w, step, flow, k);
    }
  }

  lemma StartingMayRedeem(env: Env, w: World, step: Step, k: Secret)
    requires StartPlan(env, w, step).Some?
    ensures var plan := StartPlan(env, w, step).value;
            || RedeemsNothing(plan, k)
            || (ResetIsCurrent(w.tables, k) && w.tables.resets[k.account].consumedAt.None? &&
                plan.notes == multiset{} &&
                plan.statement.NoStatement? && plan.flow.Some? && !Replaced(k)(plan.flow.value))
  {
  }

  lemma RedeemingIsOnce(env: Env, w: World, step: Step, flow: Flow, k: Secret)
    requires (flow.ResetLoaded? || flow.ResetUsable?) && NextPlan(env, w, step, flow).Some?
    ensures !Replaced(k)(flow)
    ensures var plan := NextPlan(env, w, step, flow).value;
            var replaced := Bit(plan.flow.Some? && Replaced(k)(plan.flow.value));
            && plan.notes[SpendLost(k)] == 0 && plan.notes[PasswordReplaced(k)] == replaced
            && replaced + Bit(plan.flow.Some? && Redeeming(k)(plan.flow.value)) <= Bit(Redeeming(k)(flow))
            && !plan.statement.PutReset? && !plan.statement.SpendReset?
  {
  }

  lemma SpendingIsRecordedOrLost(env: Env, w: World, step: Step, flow: Flow, k: Secret)
    requires flow.ResetReplaced? && NextPlan(env, w, step, flow).Some?
    ensures !Redeeming(k)(flow)
    ensures var plan := NextPlan(env, w, step, flow).value;
            && plan.notes[PasswordReplaced(k)] == 0
            && (plan.flow.Some? ==> !Redeeming(k)(plan.flow.value) && !Replaced(k)(plan.flow.value))
            && (plan.statement == SpendReset(flow.secret.account, flow.at) ||
                plan.notes[SpendLost(k)] == Bit(Replaced(k)(flow)))
  {
  }

  lemma CarryingOutKeepsResetInv(env: Env, w: World, r: nat, step: Step, k: Secret)
    requires Dated(w) && ResetInv(env, w, k) && PlanOf(env, w, r, step).Some?
    requires WithinLimits(env, CarryOut(w, r, PlanOf(env, w, r, step).value), k.account)
    ensures ResetInv(env, CarryOut(w, r, PlanOf(env, w, r, step).value), k)
  {
    var plan := PlanOf(env, w, r, step).value;
    var next := CarryOut(w, r, plan);
    TallyMoves(w.flows, r, plan.flow, Redeeming(k));
    TallyMoves(w.flows, r, plan.flow, Replaced(k));
    TallyParts(next.flows, Redeeming(k), Replaced(k), Resetting(k.account));
    assert PasswordReplaced(k) in w.log ==> NoteIsDated(PasswordReplaced(k), w.tables.nextSerial);
    if ResetIsCurrent(next.tables, k) {
      ResetRowMoves(w.tables, plan.statement, k);
    }
    if r !in w.flows {
      StartingMayRedeem(env, w, step, k);
    } else {
      var flow := w.flows[r];
      assert FlowIsDated(flow, w.tables.nextSerial);
      if flow.ResetLoaded? || flow.ResetUsable? {
        RedeemingIsOnce(env, w, step, flow, k);
      } else if flow.ResetReplaced? {
        SpendingIsRecordedOrLost(env, w, step, flow, k);
      } else {
        OtherPlansRedeemNothing(env, w, step, flow, k);
      }
    }
  }

  // ---- Over every run ----

  ghost predicate CapsInv(env: Env, w: World, k: Secret) {
    Dated(w) && WithinLimits(env, w, k.account) && GuessInv(env, w, k) && SessionInv(env, w, k) && ResetInv(env, w, k)
  }

  lemma StepKeepsCapsInv(env: Env, w: World, step: Step, k: Secret)
    requires CapsInv(env, w, k)
    ensures CapsInv(env, Do(env, w, step), k)
  {
    StepKeepsDated(env, w, step);
    StepKeepsLimits(env, w, step, k.account);
    if !step.Tick? && !step.SetZone? && PlanOf(env, w, step.r, step).Some? {
      PlansMoveGuesses(env, w, step.r, step, k);
      CarryingOutKeepsGuessInv(env, w, step.r, PlanOf(env, w, step.r, step).value, k);
      PlansSpendInTurn(env, w, step.r, step, k);
      CarryingOutKeepsSessionInv(env, w, step.r, PlanOf(env, w, step.r, step).value, k);
      CarryingOutKeepsResetInv(env, w, step.r, step, k);
    }
  }

  lemma {:induction false} EveryRunKeepsCapsInv(env: Env, steps: seq<Step>, k: Secret)
    requires env.policy.maxAttempts > 0
    ensures CapsInv(env, RunSteps(env, steps), k)
  {
    if steps != [] {
      EveryRunKeepsCapsInv(env, steps[..|steps| - 1], k);
      StepKeepsCapsInv(env, RunSteps(env, steps[..|steps| - 1]), steps[|steps| - 1], k);
    }
  }

  /**
   Wrong guesses ever compared with one issued code: at most the cap, plus one
   for each further verify-email request of that account in flight at once,
   plus the misses that were never recorded. Requests that do not overlap and
   a store that does not fail give exactly the configured cap.
   */
  lemma GuessesAreCapped(env: Env, steps: seq<Step>, k: Secret)
    requires env.policy.maxAttempts > 0
    ensures var log := RunSteps(env, steps).log;
            log[WrongGuess(k)] <= env.policy.maxAttempts - 1 + env.verifyLimit + log[MissLost(k)]
    ensures var log := RunSteps(env, steps).log;
            env.verifyLimit == 1 && log[MissLost(k)] == 0 ==> log[WrongGuess(k)] <= env.policy.maxAttempts
  {
    EveryRunKeepsCapsInv(env, steps, k);
  }

  /** One code opens no more sessions than verify-email requests overlap: one, when they do not. */
  lemma CodesOpenFewSessions(env: Env, steps: seq<Step>, k: Secret)
    requires env.policy.maxAttempts > 0
    ensures RunSteps(env, steps).log[CodeSession(k)] <= env.verifyLimit
  {
    EveryRunKeepsCapsInv(env, steps, k);
  }

  /** One token replaces the password once per overlapping reset, and once more for each spending that was lost. */
  lemma TokensReplaceFewPasswords(env: Env, steps: seq<Step>, k: Secret)
    requires env.policy.maxAttempts > 0
    ensures var log := RunSteps(env, steps).log;
            log[PasswordReplaced(k)] <= env.resetLimit + log[SpendLost(k)]
  {
    EveryRunKeepsCapsInv(env, steps, k);
  }
}
