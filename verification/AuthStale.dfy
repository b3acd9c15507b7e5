/**
 A replaced secret is dead. Once a newer code or reset token is stored for the
 account, the old one can still be used only by requests that had already
 loaded it, over every continuation of every world.
 */
module AuthStale {
  import opened AuthProtocol
  import opened AuthCaps

  /** The code was issued, and its account has another one now. */
  ghost predicate CodeIsReplaced(t: Tables, k: Secret) {
    k.serial < t.nextSerial && !CodeIsCurrent(t, k)
  }

  ghost predicate ResetIsReplaced(t: Tables, k: Secret) {
    k.serial < t.nextSerial && !ResetIsCurrent(t, k)
  }

  lemma StatementsKeepReplaced(t: Tables, statement: Statement, k: Secret)
    ensures CodeIsReplaced(t, k) ==> CodeIsReplaced(Execute(t, statement), k)
    ensures ResetIsReplaced(t, k) ==> ResetIsReplaced(Execute(t, statement), k)
  {
    if CodeIsCurrent(Execute(t, statement), k) {
      CodeRowMoves(t, statement, k);
    }
    if ResetIsCurrent(Execute(t, statement), k) {
      ResetRowMoves(t, statement, k);
    }
  }

  // ---- Codes ----

  /** Sessions the code has opened, and those that requests in flight may still open with it. */
  function CodeUses(w: World, k: Secret): nat {
    w.log[CodeSession(k)] + Tally(w.flows, Spending(k)) + Tally(w.flows, Opening(k))
  }

  /** Guesses compared with the code, and those that requests in flight may still compare. */
  function CodeGuesses(env: Env, w: World, k: Secret): nat {
    w.log[WrongGuess(k)] + Tally(w.flows, Guessing(env, k))
  }

  ghost predicate AddsNoUse(w: World, r: nat, plan: Plan, k: Secret) {
    plan.notes[CodeSession(k)] + Bit(plan.flow.Some? && Spending(k)(plan.flow.value)) +
    Bit(plan.flow.Some? && Opening(k)(plan.flow.value)) <=
    Bit(r in w.flows && Spending(k)(w.flows[r])) + Bit(r in w.flows && Opening(k)(w.flows[r]))
  }

  lemma PlansAddNoUse(env: Env, w: World, r: nat, step: Step, k: Secret)
    requires !CodeIsCurrent(w.tables, k) && PlanOf(env, w, r, step).Some?
    ensures AddsNoUse(w, r, PlanOf(env, w, r, step).value, k)
  {
    if r !in w.flows {
      StartPlansSpendNothing(env, w, step, k);
    } else {
      var flow := w.flows[r];
      if flow.VerifyFound? || flow.VerifyMissed? {
        LoadingMaySpend(env, w, step, flow, k);
      } else if flow.VerifyLoaded? || flow.VerifyHit? {
        SpendingIsOnce(env, w, step, flow, k);
      } else if flow.VerifyConsumed? || flow.VerifyMarked? {
        OpeningIsOnce(env, w, step, flow, k);
      } else {
        OtherPlansSpendNothing(env, w, step, flow, k);
      }
    }
  }

  lemma CarryingOutAddsNoUse(w: World, r: nat, plan: Plan, k: Secret)
    requires AddsNoUse(w, r, plan, k)
    ensures CodeUses(CarryOut(w, r, plan), k) <= CodeUses(w, k)
  {
    TallyMoves(w.flows, r, plan.flow, Spending(k));
    TallyMoves(w.flows, r, plan.flow, Opening(k));
  }

  lemma CarryingOutAddsNoGuess(env: Env, w: World, r: nat, plan: Plan, k: Secret)
    requires !CodeIsCurrent(w.tables, k) && GuessesMove(env, w, r, plan, k)
    ensures CodeGuesses(env, CarryOut(w, r, plan), k) <= CodeGuesses(env, w, k)
  {
    TallyMoves(w.flows, r, plan.flow, Guessing(env, k));
  }

  lemma StepAddsNoUse(env: Env, w: World, step: Step, k: Secret)
    requires CodeIsReplaced(w.tables, k)
    ensures CodeIsReplaced(Do(env, w, step).tables, k)
    ensures CodeUses(Do(env, w, step), k) <= CodeUses(w, k)
    ensures CodeGuesses(env, Do(env, w, step), k) <= CodeGuesses(env, w, k)
  {
    if step.SetZone? {
      StatementsKeepReplaced(w.tables, SetOffset(step.account, step.offset), k);
    } else if !step.Tick? && PlanOf(env, w, step.r, step).Some? {
      var plan := PlanOf(env, w, step.r, step).value;
      StatementsKeepReplaced(w.tables, plan.statement, k);
      PlansAddNoUse(env, w, step.r, step, k);
      CarryingOutAddsNoUse(w, step.r, plan, k);
      PlansMoveGuesses(env, w, step.r, step, k);
      CarryingOutAddsNoGuess(env, w, step.r, plan, k);
    }
  }

  /**
   However a run goes on after a code was replaced, it opens no more sessions
   with it, and compares no more guesses, than requests had already loaded it:
   none at all when no such request is in flight.
   */
  lemma {:induction false} ReplacedCodesAreDead(env: Env, w: World, steps: seq<Step>, k: Secret)
    requires CodeIsReplaced(w.tables, k)
    ensures var next := RunFrom(env, w, steps);
            && CodeIsReplaced(next.tables, k)
            && CodeUses(next, k) <= CodeUses(w, k) && CodeGuesses(env, next, k) <= CodeGuesses(env, w, k)
            && next.log[CodeSession(k)] <=
               w.log[CodeSession(k)] + Tally(w.flows, Spending(k)) + Tally(w.flows, Opening(k))
            && next.log[WrongGuess(k)] <= w.log[WrongGuess(k)] + Tally(w.flows, Guessing(env, k))
  {
    if steps != [] {
      ReplacedCodesAreDead(env, w, steps[..|steps| - 1], k);
      StepAddsNoUse(env, RunFrom(env, w, steps[..|steps| - 1]), steps[|steps| - 1], k);
    }
  }

  // ---- Reset tokens ----

  /** Passwords the token has replaced, and those that requests in flight may still replace with it. */
  function TokenUses(w: World, k: Secret): nat {
    w.log[PasswordReplaced(k)] + Tally(w.flows, Redeeming(k))
  }

  ghost predicate AddsNoReplacement(w: World, r: nat, plan: Plan, k: Secret) {
    plan.notes[PasswordReplaced(k)] + Bit(plan.flow.Some? && Redeeming(k)(plan.flow.value)) <=
    Bit(r in w.flows && Redeeming(k)(w.flows[r]))
  }

  lemma PlansAddNoReplacement(env: Env, w: World, r: nat, step: Step, k: Secret)
    requires !ResetIsCurrent(w.tables, k) && PlanOf(env, w, r, step).Some?
    ensures AddsNoReplacement(w, r, PlanOf(env, w, r, step).value, k)
  {
    if r !in w.flows {
      StartingMayRedeem(env, w, step, k);
    } else {
      var flow := w.flows[r];
      if flow.ResetLoaded? || flow.ResetUsable? {
        RedeemingIsOnce(env, w, step, flow, k);
      } else if flow.ResetReplaced? {
        SpendingIsRecordedOrLost(env, w, step, flow, k);
      } else {
        OtherPlansRedeemNothing(env, w, step, flow, k);
      }
    }
  }

  lemma StepAddsNoReplacement(env: Env, w: World, step: Step, k: Secret)
    requires ResetIsReplaced(w.tables, k)
    ensures ResetIsReplaced(Do(env, w, step).tables, k)
    ensures TokenUses(Do(env, w, step), k) <= TokenUses(w, k)
  {
    if step.SetZone? {
      StatementsKeepReplaced(w.tables, SetOffset(step.account, step.offset), k);
    } else if !step.Tick? && PlanOf(env, w, step.r, step).Some? {
      var plan := PlanOf(env, w, step.r, step).value;
      StatementsKeepReplaced(w.tables, plan.statement, k);
      PlansAddNoReplacement(env, w, step.r, step, k);
      TallyMoves(w.flows, step.r, plan.flow, Redeeming(k));
    }
  }

  /** The same for a reset token: after a newer one, only requests that had loaded it may still use it. */
  lemma {:induction false} ReplacedTokensAreDead(env: Env, w: World, steps: seq<Step>, k: Secret)
    requires ResetIsReplaced(w.tables, k)
    ensures var next := RunFrom(env, w, steps);
            && ResetIsReplaced(next.tables, k) && TokenUses(next, k) <= TokenUses(w, k)
            && next.log[PasswordReplaced(k)] <= w.log[PasswordReplaced(k)] + Tally(w.flows, Redeeming(k))
  {
    if steps != [] {
      ReplacedTokensAreDead(env, w, steps[..|steps| - 1], k);
      StepAddsNoReplacement(env, RunFrom(env, w, steps[..|steps| - 1]), steps[|steps| - 1], k);
    }
  }
}
