/**
 The activity counters of every account over every interleaving: logins,
 confirmations and progress writes touch them, each with a day cut in the zone
 it had read, and the zone may be edited at any time in between.
 */
module AuthZones {
  import opened Activity
  import opened AuthStore
  import opened AuthProtocol
  import AuthGate

  // ---- Days never run ahead of the clock by more than one ----

  /** No request cuts a day later than tomorrow's UTC day. */
  ghost predicate FlowIsPast(flow: Flow, now: int) {
    match flow
    case VerifyHit(_, _, at) => at <= now
    case VerifyConsumed(_, _, at) => at <= now
    case VerifyMarked(_, _, at, offset) => at <= now && IsOffset(offset)
    case LoginAllowed(_, offset) => IsOffset(offset)
    case ActivityFound(_, offset) => IsOffset(offset)
    case _ => true
  }

  ghost predicate StatementIsPast(statement: Statement, now: int) {
    match statement
    case AddUser(_, user) => user.offset == 0
    case SetOffset(_, offset) => IsOffset(offset)
    case TouchUser(_, day) => day <= UTCDay(now) + 1
    case _ => true
  }

  ghost predicate PastInv(w: World) {
    && (forall a :: a in w.tables.users ==> IsOffset(w.tables.users[a].offset))
    && (forall r :: r in w.flows ==> FlowIsPast(w.flows[r], w.now))
  }

  lemma DaysAreAtMostTomorrow(at: int, offset: int, now: int)
    requires at <= now && IsOffset(offset)
    ensures DayIn(at, offset) <= UTCDay(now) + 1
  {
    ZonesMoveADayAtMostOnce(at, offset);
    LaterInstantsHaveLaterDays(at, now);
  }

  lemma NextFlowsArePast(env: Env, w: World, step: Step, flow: Flow)
    requires PastInv(w) && FlowIsPast(flow, w.now)
    requires NextPlan(env, w, step, flow).Some? && NextPlan(env, w, step, flow).value.flow.Some?
    ensures FlowIsPast(NextPlan(env, w, step, flow).value.flow.value, w.now)
  {
  }

  lemma NextStatementsArePast(env: Env, w: World, step: Step, flow: Flow)
    requires FlowIsPast(flow, w.now) && NextPlan(env, w, step, flow).Some?
    ensures StatementIsPast(NextPlan(env, w, step, flow).value.statement, w.now)
  {
    match flow
    case VerifyMarked(_, _, at, offset) => DaysAreAtMostTomorrow(at, offset, w.now);
    case LoginAllowed(_, offset) => DaysAreAtMostTomorrow(w.now, offset, w.now);
    case ActivityFound(_, offset) => DaysAreAtMostTomorrow(w.now, offset, w.now);
    case _ => AuthGate.StatementsKeepTheirAccount(env, w, step, flow);
  }

  lemma StartPlansArePast(env: Env, w: World, step: Step)
    requires PastInv(w) && StartPlan(env, w, step).Some?
    ensures var plan := StartPlan(env, w, step).value;
            plan.flow.Some? && FlowIsPast(plan.flow.value, w.now) && StatementIsPast(plan.statement, w.now)
  {
  }

  lemma PlansArePast(env: Env, w: World, r: nat, step: Step)
    requires PastInv(w) && PlanOf(env, w, r, step).Some?
    ensures var plan := PlanOf(env, w, r, step).value;
            (plan.flow.Some? ==> FlowIsPast(plan.flow.value, w.now)) && StatementIsPast(plan.statement, w.now)
  {
    if r in w.flows {
      NextStatementsArePast(env, w, step, w.flows[r]);
      if PlanOf(env, w, r, step).value.flow.Some? {
        NextFlowsArePast(env, w, step, w.flows[r]);
      }
    } else {
      StartPlansArePast(env, w, step);
    }
  }

  lemma CarryingOutKeepsPast(w: World, r: nat, plan: Plan)
    requires PastInv(w) && StatementIsPast(plan.statement, w.now)
    requires plan.flow.Some? ==> FlowIsPast(plan.flow.value, w.now)
    ensures PastInv(CarryOut(w, r, plan))
  {
  }

  lemma StepKeepsPast(env: Env, w: World, step: Step)
    requires PastInv(w)
    ensures PastInv(Do(env, w, step))
  {
    if !step.Tick? && !step.SetZone? && PlanOf(env, w, step.r, step).Some? {
      PlansArePast(env, w, step.r, step);
      CarryingOutKeepsPast(w, step.r, PlanOf(env, w, step.r, step).value);
    }
  }

  lemma {:induction false} EveryRunKeepsPast(env: Env, w: World, steps: seq<Step>)
    requires PastInv(w)
    ensures PastInv(RunFrom(env, w, steps))
  {
    if steps != [] {
      EveryRunKeepsPast(env, w, steps[..|steps| - 1]);
      StepKeepsPast(env, RunFrom(env, w, steps[..|steps| - 1]), steps[|steps| - 1]);
    }
  }

  // ---- The counters of one account ----

  /** At most one distinct day for each day from registration to the stored one, which is no later than latest. */
  ghost predicate CountersFit(c: Counters, registered: int, latest: int) {
    && 1 <= c.streak <= c.distinct
    && c.last.Some? && c.last.value <= latest
    && c.distinct <= c.last.value - registered + 1
  }

  lemma TouchingKeepsTheFit(c: Counters, registered: int, latest: int, day: int)
    requires CountersFit(c, registered, latest) && day <= latest
    ensures CountersFit(Touch(c, day), registered, latest)
  {
  }

  ghost predicate AccountFits(t: Tables, account: AccountId, registered: int, latest: int) {
    account in t.users && CountersFit(t.users[account].counters, registered, latest)
  }

  lemma StatementsKeepTheFit(t: Tables, statement: Statement, now: int, account: AccountId, registered: int)
    requires AccountFits(t, account, registered, UTCDay(now) + 1)
    requires StatementIsPast(statement, now) && (statement.AddUser? ==> statement.account !in t.users)
    ensures AccountFits(Execute(t, statement), account, registered, UTCDay(now) + 1)
  {
    if statement.TouchUser? && statement.account == account {
      TouchingKeepsTheFit(t.users[account].counters, registered, UTCDay(now) + 1, statement.day);
    }
  }

  lemma StepKeepsTheFit(env: Env, w: World, step: Step, account: AccountId, registered: int)
    requires PastInv(w) && AccountFits(w.tables, account, registered, UTCDay(w.now) + 1)
    ensures var next := Do(env, w, step);
            AccountFits(next.tables, account, registered, UTCDay(next.now) + 1)
  {
    if step.Tick? {
      LaterInstantsHaveLaterDays(w.now, w.now + step.elapsed);
    } else if step.SetZone? {
      if IsOffset(step.offset) {
        StatementsKeepTheFit(w.tables, SetOffset(step.account, step.offset), w.now, account, registered);
      }
    } else if PlanOf(env, w, step.r, step).Some? {
      PlansArePast(env, w, step.r, step);
      AuthGate.PlansAddNewAccounts(env, w, step.r, step);
      StatementsKeepTheFit(w.tables, PlanOf(env, w, step.r, step).value.statement, w.now, account, registered);
    }
  }

  lemma {:induction false} RunsKeepTheFit(env: Env, w: World, steps: seq<Step>, account: AccountId, registered: int)
    requires PastInv(w) && AccountFits(w.tables, account, registered, UTCDay(w.now) + 1)
    ensures var next := RunFrom(env, w, steps);
            AccountFits(next.tables, account, registered, UTCDay(next.now) + 1)
  {
    if steps != [] {
      var before := RunFrom(env, w, steps[..|steps| - 1]);
      RunsKeepTheFit(env, w, steps[..|steps| - 1], account, registered);
      EveryRunKeepsPast(env, w, steps[..|steps| - 1]);
      StepKeepsTheFit(env, before, steps[|steps| - 1], account, registered);
    }
  }

  lemma NewAccountsFit(env: Env, w: World, step: Step)
    requires step.CreateAccount? && step.account !in w.tables.users
    requires step.account in Do(env, w, step).tables.users
    ensures AccountFits(Do(env, w, step).tables, step.account, UTCDay(w.now), UTCDay(w.now) + 1)
    ensures Do(env, w, step).now == w.now
  {
    var plan := PlanOf(env, w, step.r, step);
    if step.r in w.flows && plan.Some? {
      AuthGate.StatementsKeepTheirAccount(env, w, step, w.flows[step.r]);
    }
  }

  /**
   Every account of every run: however requests interleave with edits of its
   zone after it was created, its counters never exceed the UTC days since then
   by more than one.
   */
  lemma AccountsGainAtMostOneDay(env: Env, before: seq<Step>, create: Step, after: seq<Step>)
    requires create.CreateAccount?
    requires create.account !in RunSteps(env, before).tables.users
    requires create.account in Do(env, RunSteps(env, before), create).tables.users
    ensures var w := RunSteps(env, before);
            var end := RunFrom(env, Do(env, w, create), after);
            && create.account in end.tables.users
            && var c := end.tables.users[create.account].counters;
               1 <= c.streak <= c.distinct <= (UTCDay(end.now) - UTCDay(w.now) + 1) + 1
  {
    var w := RunSteps(env, before);
    EveryRunKeepsPast(env, EMPTY_WORLD, before);
    StepKeepsPast(env, w, create);
    NewAccountsFit(env, w, create);
    RunsKeepTheFit(env, Do(env, w, create), after, create.account, UTCDay(w.now));
  }
}
