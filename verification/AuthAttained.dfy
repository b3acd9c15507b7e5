/**
 The bounds of AuthCaps are exact: for every limit on overlapping requests, and
 every number of lost writes, some interleaving reaches them. So a code has
 exactly the configured guesses, and a code or a token is used once, exactly
 when requests of one account do not overlap and no write is lost.
 */
module AuthAttained {
  import opened Wrappers
  import opened AuthStore
  import opened AuthProtocol
  import opened AuthRuns
  import opened AuthCaps
  import AuthSequential

  /** The one secret of these runs. */
  const FIRST := Secret(0, 0)

  // ---- Requests among others ----

  lemma NobodyIsCounted(p: Flow -> bool)
    ensures Tally(map[], p) == 0
  {
    assert Matching(map[], p) == {};
  }

  lemma OneMoreIsCounted(flows: map<nat, Flow>, r: nat, flow: Flow, p: Flow -> bool)
    requires r !in flows && p(flow)
    ensures Tally(flows[r := flow], p) == Tally(flows, p) + 1
  {
    TallyMoves(flows, r, Some(flow), p);
  }

  /** So many requests, numbered from zero, and as many counted. */
  ghost predicate Numbered(flows: map<nat, Flow>, size: nat, p: Flow -> bool) {
    Tally(flows, p) == size && forall r :: r in flows <==> 0 <= r < size
  }

  /** A request r of these flows moves on, wherever the others are. */
  lemma Moves(env: Env, w: World, step: Step, plan: Plan) returns (next: World)
    requires Reachable(env, w) && !step.Tick? && !step.SetZone? && step.r in w.flows
    requires NextPlan(env, w, step, w.flows[step.r]) == Some(plan)
    ensures Reachable(env, next)
    ensures next == World(w.now, Execute(w.tables, plan.statement), FlowsAfter(w.flows, step.r, plan.flow),
            w.log + plan.notes)
  {
    var others := w.flows - {step.r};
    assert w.flows == others[step.r := w.flows[step.r]];
    next := Advance(env, w, step, others, w.flows[step.r], plan);
    assert plan.flow.Some? ==> others[step.r := plan.flow.value] == w.flows[step.r := plan.flow.value];
  }

  // ---- Guesses ----

  function Code(env: Env, attempts: nat): CodeRow {
    CodeRow(0, env.hashSecret("1"), attempts, env.policy.codeTtl, None)
  }

  /** A request that has loaded the code after so many attempts, and guesses wrong. */
  function Guesser(env: Env, attempts: nat): Flow {
    VerifyLoaded(0, "0", Code(env, attempts))
  }

  /** One unverified account at instant zero: its first code, the guesses at it, and the misses never recorded. */
  ghost predicate Guessed(env: Env, w: World, attempts: nat, guesses: nat, lost: nat) {
    && w.now == 0 && 0 in w.tables.users && !w.tables.Verified(0)
    && 0 in w.tables.codes && w.tables.codes[0] == Code(env, attempts)
    && w.log[WrongGuess(FIRST)] == guesses && w.log[MissLost(FIRST)] == lost && w.log[CodeSession(FIRST)] == 0
  }

  lemma RegisteredAlone(env: Env) returns (w: World)
    ensures Reachable(env, w) && Guessed(env, w, 0, 0, 0) && w.flows == map[]
  {
    EmptyIsReachable(env);
    w := AuthSequential.RegisterIsARun(env, EMPTY_WORLD, 0, 0, "", "", "1");
  }

  /** A request that has loaded the code compares, and guesses wrong. */
  lemma Compares(env: Env, w: World, r: nat, loaded: nat, attempts: nat, guesses: nat, lost: nat) returns (next: World)
    requires env.Valid() && env.policy.codeTtl > 0 && loaded < env.policy.maxAttempts
    requires Reachable(env, w) && Guessed(env, w, attempts, guesses, lost)
    requires r in w.flows && w.flows[r] == Guesser(env, loaded)
    ensures Reachable(env, next) && Guessed(env, next, attempts, guesses + 1, lost)
    ensures next.flows == w.flows[r := VerifyMissed(FIRST)]
  {
    assert env.hashSecret("0") == env.hashSecret("1") ==> "0" == "1";
    next := Moves(env, w, CheckCode(r), Plan(Some(VerifyMissed(FIRST)), NoStatement, multiset{WrongGuess(FIRST)}));
  }

  /** One request on its own, up to its wrong guess. */
  lemma GuessesAlone(env: Env, w: World, attempts: nat, guesses: nat, lost: nat) returns (next: World)
    requires env.Valid() && env.policy.codeTtl > 0 && attempts < env.policy.maxAttempts && env.verifyLimit > 0
    requires Reachable(env, w) && Guessed(env, w, attempts, guesses, lost) && w.flows == map[]
    ensures Reachable(env, next) && Guessed(env, next, attempts, guesses + 1, lost)
    ensures next.flows == map[0 := VerifyMissed(FIRST)]
  {
    NobodyIsCounted(Verifying(0));
    var loaded := AuthSequential.LoadsTheCode(env, w, 0, 0, "0");
    next := Compares(env, loaded, 0, attempts, attempts, guesses, lost);
    assert loaded.flows[0 := VerifyMissed(FIRST)] == map[0 := VerifyMissed(FIRST)];
  }

  lemma LosesTheMiss(env: Env, w: World, attempts: nat, guesses: nat, lost: nat) returns (next: World)
    requires Reachable(env, w) && Guessed(env, w, attempts, guesses, lost) && w.flows == map[0 := VerifyMissed(FIRST)]
    ensures Reachable(env, next) && Guessed(env, next, attempts, guesses, lost + 1) && next.flows == map[]
  {
    next := Moves(env, w, Drop(0), Plan(None, NoStatement, multiset{MissLost(FIRST)}));
  }

  lemma RecordsTheMiss(env: Env, w: World, attempts: nat, guesses: nat, lost: nat) returns (next: World)
    requires Reachable(env, w) && Guessed(env, w, attempts, guesses, lost) && w.flows == map[0 := VerifyMissed(FIRST)]
    ensures Reachable(env, next) && Guessed(env, next, attempts + 1, guesses, lost) && next.flows == map[]
  {
    next := Moves(env, w, RecordMiss(0), Plan(None, MissCode(0), multiset{}));
  }

  /** So many misses lost, then so many recorded, one request at a time. */
  lemma {:induction false} OneAtATime(env: Env, lost: nat, recorded: nat) returns (w: World)
    requires env.Valid() && env.policy.codeTtl > 0 && recorded < env.policy.maxAttempts && env.verifyLimit > 0
    ensures Reachable(env, w) && Guessed(env, w, recorded, lost + recorded, lost) && w.flows == map[]
    decreases lost + recorded
  {
    if recorded > 0 {
      var before := OneAtATime(env, lost, recorded - 1);
      var missed := GuessesAlone(env, before, recorded - 1, lost + recorded - 1, lost);
      w := RecordsTheMiss(env, missed, recorded - 1, lost + recorded, lost);
    } else if lost > 0 {
      var before := OneAtATime(env, lost - 1, 0);
      var missed := GuessesAlone(env, before, 0, lost - 1, lost - 1);
      w := LosesTheMiss(env, missed, 0, lost, lost - 1);
    } else {
      w := RegisteredAlone(env);
    }
  }

  lemma LoadsToGuess(env: Env, w: World, r: nat, attempts: nat, guesses: nat, lost: nat) returns (next: World)
    requires Reachable(env, w) && Guessed(env, w, attempts, guesses, lost) && r !in w.flows
    requires Tally(w.flows, Verifying(0)) < env.verifyLimit
    ensures Reachable(env, next) && Guessed(env, next, attempts, guesses, lost)
    ensures next.flows == w.flows[r := Guesser(env, attempts)]
  {
    next := AuthSequential.LoadsTheCode(env, w, r, 0, "0");
  }

  lemma {:induction false} AllLoad(env: Env, lost: nat, attempts: nat, size: nat) returns (w: World)
    requires env.Valid() && env.policy.codeTtl > 0 && attempts < env.policy.maxAttempts
    requires env.verifyLimit > 0 && size <= env.verifyLimit
    ensures Reachable(env, w) && Guessed(env, w, attempts, lost + attempts, lost)
    ensures Numbered(w.flows, size, Verifying(0)) && forall r :: r in w.flows ==> w.flows[r] == Guesser(env, attempts)
  {
    if size == 0 {
      w := OneAtATime(env, lost, attempts);
      NobodyIsCounted(Verifying(0));
    } else {
      var before := AllLoad(env, lost, attempts, size - 1);
      OneMoreIsCounted(before.flows, size - 1, Guesser(env, attempts), Verifying(0));
      w := LoadsToGuess(env, before, size - 1, attempts, lost + attempts, lost);
    }
  }

  lemma {:induction false} AllCompare(env: Env, lost: nat, attempts: nat, size: nat, done: nat) returns (w: World)
    requires env.Valid() && env.policy.codeTtl > 0 && attempts < env.policy.maxAttempts
    requires env.verifyLimit > 0 && done <= size <= env.verifyLimit
    ensures Reachable(env, w) && Guessed(env, w, attempts, lost + attempts + done, lost)
    ensures forall r: nat :: done <= r < size ==> r in w.flows && w.flows[r] == Guesser(env, attempts)
  {
    if done == 0 {
      w := AllLoad(env, lost, attempts, size);
    } else {
      var before := AllCompare(env, lost, attempts, size, done - 1);
      w := Compares(env, before, done - 1, attempts, attempts, lost + attempts + done - 1, lost);
    }
  }

  /**
   For every cap, every limit and every number of lost misses, some run makes as many wrong guesses as
   the bound allows.
   */
  lemma GuessBoundIsAttained(env: Env, lost: nat)
    requires env.Valid() && env.policy.codeTtl > 0 && env.verifyLimit > 0
    ensures exists steps :: var log := RunSteps(env, steps).log;
              log[WrongGuess(FIRST)] == env.policy.maxAttempts - 1 + env.verifyLimit + lost &&
                  log[MissLost(FIRST)] == lost
  {
    var w := AllCompare(env, lost, env.policy.maxAttempts - 1, env.verifyLimit, env.verifyLimit);
    var steps :| RunSteps(env, steps) == w;
    assert RunSteps(env, steps).log[WrongGuess(FIRST)] == env.policy.maxAttempts - 1 + env.verifyLimit + lost;
  }

  lemma SomebodyIsCounted(flows: map<nat, Flow>, r: nat, p: Flow -> bool)
    requires r in flows && p(flows[r])
    ensures Tally(flows, p) > 0
  {
    assert r in Matching(flows, p);
  }

  lemma StartPlansNoteNothing(env: Env, w: World, step: Step)
    requires StartPlan(env, w, step).Some?
    ensures StartPlan(env, w, step).value.notes == multiset{}
  {
  }

  lemma GuessesAreCounted(env: Env, w: World, r: nat, step: Step, k: Secret)
    requires PlanOf(env, w, r, step).Some? && PlanOf(env, w, r, step).value.notes[WrongGuess(k)] > 0
    ensures Tally(w.flows, Verifying(k.account)) > 0
  {
    PlansMoveGuesses(env, w, r, step, k);
    SomebodyIsCounted(w.flows, r, Verifying(k.account));
  }

  lemma ReplacementsAreCounted(env: Env, w: World, r: nat, step: Step, k: Secret)
    requires PlanOf(env, w, r, step).Some? && PasswordReplaced(k) in PlanOf(env, w, r, step).value.notes
    ensures Tally(w.flows, Resetting(k.account)) > 0
  {
    if r in w.flows {
      AuthGate.OnlyHoldersUse(env, w, step, w.flows[r], k);
      SomebodyIsCounted(w.flows, r, Resetting(k.account));
    } else {
      StartPlansNoteNothing(env, w, step);
    }
  }

  lemma NobodyStepsDoNothing(env: Env, w: World, step: Step, k: Secret)
    requires WithinLimits(env, w, k.account)
    ensures env.verifyLimit == 0 && w.log[WrongGuess(k)] == 0 ==> Do(env, w, step).log[WrongGuess(k)] == 0
    ensures env.resetLimit == 0 && w.log[PasswordReplaced(k)] == 0 ==> Do(env, w, step).log[PasswordReplaced(k)] == 0
  {
    if !step.Tick? && !step.SetZone? && PlanOf(env, w, step.r, step).Some? {
      var notes := PlanOf(env, w, step.r, step).value.notes;
      if notes[WrongGuess(k)] > 0 {
        GuessesAreCounted(env, w, step.r, step, k);
      }
      if notes[PasswordReplaced(k)] > 0 {
        ReplacementsAreCounted(env, w, step.r, step, k);
      }
    }
  }

  /** Where no such request is admitted there is no guess and no replacement at all. */
  lemma {:induction false} NobodyDoesNothing(env: Env, steps: seq<Step>, k: Secret)
    requires env.policy.maxAttempts > 0
    ensures env.verifyLimit == 0 ==> RunSteps(env, steps).log[WrongGuess(k)] == 0
    ensures env.resetLimit == 0 ==> RunSteps(env, steps).log[PasswordReplaced(k)] == 0
  {
    if steps != [] {
      var init, step := steps[..|steps| - 1], steps[|steps| - 1];
      NobodyDoesNothing(env, init, k);
      EveryRunKeepsCapsInv(env, init, k);
      var w := RunSteps(env, init);
      assert RunSteps(env, steps) == Do(env, w, step);
      NobodyStepsDoNothing(env, w, step, k);
    }
  }

  /** No run with at most so many lost misses guesses wrong more often than the cap. */
  ghost predicate CapHolds(env: Env, lost: nat) {
    forall steps, k :: var log := RunSteps(env, steps).log;
      log[MissLost(k)] <= lost ==> log[WrongGuess(k)] <= env.policy.maxAttempts
  }

  /**
   The configured cap holds exactly when verify-email requests do not overlap
   and no miss is lost, or no such request is admitted at all.
   */
  lemma WhenTheCapHolds(env: Env, lost: nat)
    requires env.Valid() && env.policy.codeTtl > 0
    ensures CapHolds(env, lost) <==> env.verifyLimit == 0 || (env.verifyLimit == 1 && lost == 0)
  {
    if env.verifyLimit == 0 || (env.verifyLimit == 1 && lost == 0) {
      forall steps, k | RunSteps(env, steps).log[MissLost(k)] <= lost
        ensures RunSteps(env, steps).log[WrongGuess(k)] <= env.policy.maxAttempts
      {
        GuessesAreCapped(env, steps, k);
        NobodyDoesNothing(env, steps, k);
      }
    } else {
      GuessBoundIsAttained(env, lost);
      var steps :| RunSteps(env, steps).log[WrongGuess(FIRST)] == env.policy.maxAttempts - 1 + env.verifyLimit + lost &&
                   RunSteps(env, steps).log[MissLost(FIRST)] == lost;
    }
  }

  // ---- Sessions ----

  /** A request that has loaded the unspent code and knows it, and one whose code was accepted at an instant. */
  function Knower(env: Env): Flow {
    VerifyLoaded(0, "1", Code(env, 0))
  }

  function Hit(at: int): Flow {
    VerifyHit(FIRST, "1", at)
  }

  lemma LoadsToSpend(env: Env, w: World, r: nat) returns (next: World)
    requires Reachable(env, w) && Guessed(env, w, 0, 0, 0) && r !in w.flows
    requires Tally(w.flows, Verifying(0)) < env.verifyLimit
    ensures Reachable(env, next) && Guessed(env, next, 0, 0, 0) && next.flows == w.flows[r := Knower(env)]
  {
    next := AuthSequential.LoadsTheCode(env, w, r, 0, "1");
  }

  lemma {:induction false} AllLoadToSpend(env: Env, size: nat) returns (w: World)
    requires size <= env.verifyLimit
    ensures Reachable(env, w) && Guessed(env, w, 0, 0, 0)
    ensures Numbered(w.flows, size, Verifying(0)) && forall r :: r in w.flows ==> w.flows[r] == Knower(env)
  {
    if size == 0 {
      w := RegisteredAlone(env);
      NobodyIsCounted(Verifying(0));
    } else {
      var before := AllLoadToSpend(env, size - 1);
      OneMoreIsCounted(before.flows, size - 1, Knower(env), Verifying(0));
      w := LoadsToSpend(env, before, size - 1);
    }
  }

  /**
   The stamp after so many sessions. Two confirmations with the same stamp do
   not both count, so the requests check their code at two instants in turn.
   */
  function Stamp(sessions: nat): Option<int> {
    if sessions == 0 then None else Some((sessions - 1) % 2)
  }

  /** One account at an instant, the sessions its code has opened, and the last stamp. */
  ghost predicate Spent(w: World, now: int, sessions: nat) {
    && w.now == now && 0 in w.tables.users && w.tables.users[0].verifiedAt == Stamp(sessions)
    && 0 in w.tables.codes && w.log[CodeSession(FIRST)] == sessions
  }

  lemma Accepts(env: Env, w: World, r: nat, now: int) returns (next: World)
    requires env.policy.maxAttempts > 0 && now < env.policy.codeTtl
    requires Reachable(env, w) && Spent(w, now, 0) && r in w.flows && w.flows[r] == Knower(env)
    ensures Reachable(env, next) && Spent(next, now, 0) && next.flows == w.flows[r := Hit(now)]
  {
    next := Moves(env, w, CheckCode(r),
                  Plan(Some(Hit(now)), NoStatement, multiset{CodeAccepted(FIRST, "1", now, Code(env, 0))}));
  }

  /** Where request r is once done of them have had their turn to check their code at this instant. */
  function Checking(env: Env, now: int, done: nat, r: nat): Flow {
    var turn := r % 2;
    if turn < now || (turn == now && r < done) then Hit(turn) else Knower(env)
  }

  ghost predicate AllChecking(env: Env, w: World, now: int, size: nat, done: nat) {
    Spent(w, now, 0) && forall r: nat :: r < size ==> r in w.flows && w.flows[r] == Checking(env, now, done, r)
  }

  lemma ChecksInTurn(env: Env, w: World, now: int, size: nat, done: nat) returns (next: World)
    requires env.policy.maxAttempts > 0 && 0 <= now <= 1 < env.policy.codeTtl
    requires Reachable(env, w) && AllChecking(env, w, now, size, done) && done < size
    ensures Reachable(env, next) && AllChecking(env, next, now, size, done + 1)
  {
    next := w;
    if done % 2 == now {
      next := Accepts(env, w, done, now);
    }
    forall r: nat | r < size ensures r in next.flows && next.flows[r] == Checking(env, now, done + 1, r) {
      assert w.flows[r] == Checking(env, now, done, r);
    }
  }

  lemma LetsTheClockTick(env: Env, w: World, size: nat) returns (next: World)
    requires Reachable(env, w) && AllChecking(env, w, 0, size, size)
    ensures Reachable(env, next) && AllChecking(env, next, 1, size, 0)
  {
    next := Do(env, w, Tick(1));
    StepsReach(env, w, Tick(1));
    forall r: nat | r < size ensures r in next.flows && next.flows[r] == Checking(env, 1, 0, r) {
      assert w.flows[r] == Checking(env, 0, size, r);
    }
  }

  /** The even ones check at instant zero, the others at instant one. */
  lemma {:induction false} AllCheck(env: Env, now: int, size: nat, done: nat) returns (w: World)
    requires env.policy.maxAttempts > 0 && 0 <= now <= 1 < env.policy.codeTtl && done <= size <= env.verifyLimit
    ensures Reachable(env, w) && AllChecking(env, w, now, size, done)
    decreases now, done
  {
    if done > 0 {
      var before := AllCheck(env, now, size, done - 1);
      w := ChecksInTurn(env, before, now, size, done - 1);
    } else if now == 0 {
      w := AllLoadToSpend(env, size);
    } else {
      var before := AllCheck(env, 0, size, size);
      w := LetsTheClockTick(env, before, size);
    }
  }

  lemma SpendingOpensOneSession(log: multiset<Note>, code: string, at: int)
    ensures (log + AuthSequential.SpendNotes(FIRST, code, at))[CodeSession(FIRST)] == log[CodeSession(FIRST)] + 1
  {
  }

  /** An accepted request spends the code whatever the row has become, and opens its session. */
  lemma SpendsAndOpens(env: Env, w: World, r: nat, sessions: nat) returns (next: World)
    requires Reachable(env, w) && Spent(w, 1, sessions) && r in w.flows && w.flows[r] == Hit(sessions % 2)
    ensures Reachable(env, next) && Spent(next, 1, sessions + 1) && next.flows == w.flows - {r}
  {
    var others := w.flows - {r};
    assert w.flows == others[r := Hit(sessions % 2)];
    next := AuthSequential.SpendsTheCode(env, w, r, others, FIRST, "1", sessions % 2);
    SpendingOpensOneSession(w.log, "1", sessions % 2);
  }

  lemma {:induction false} AllSpend(env: Env, size: nat, done: nat) returns (w: World)
    requires env.policy.maxAttempts > 0 && env.policy.codeTtl > 1 && done <= size <= env.verifyLimit
    ensures Reachable(env, w) && Spent(w, 1, done)
    ensures forall r: nat :: done <= r < size ==> r in w.flows && w.flows[r] == Hit(r % 2)
  {
    if done == 0 {
      w := AllCheck(env, 1, size, size);
      forall r: nat | r < size ensures r in w.flows && w.flows[r] == Hit(r % 2) {
        assert w.flows[r] == Checking(env, 1, size, r);
      }
    } else {
      var before := AllSpend(env, size, done - 1);
      w := SpendsAndOpens(env, before, done - 1, done - 1);
    }
  }

  /** For every limit some run opens as many sessions with one code as requests may overlap. */
  lemma SessionBoundIsAttained(env: Env)
    requires env.policy.maxAttempts > 0 && env.policy.codeTtl > 1
    ensures exists steps :: RunSteps(env, steps).log[CodeSession(FIRST)] == env.verifyLimit
  {
    var w := AllSpend(env, env.verifyLimit, env.verifyLimit);
    var steps :| RunSteps(env, steps) == w;
    assert RunSteps(env, steps).log[CodeSession(FIRST)] == env.verifyLimit;
  }

  ghost predicate CodesAreSingleUse(env: Env) {
    forall steps, k :: RunSteps(env, steps).log[CodeSession(k)] <= 1
  }

  /** A code opens at most one session in every run exactly when verify-email requests do not overlap. */
  lemma WhenCodesAreSingleUse(env: Env)
    requires env.policy.maxAttempts > 0 && env.policy.codeTtl > 1
    ensures CodesAreSingleUse(env) <==> env.verifyLimit <= 1
  {
    if env.verifyLimit <= 1 {
      forall steps, k ensures RunSteps(env, steps).log[CodeSession(k)] <= 1 {
        CodesOpenFewSessions(env, steps, k);
      }
    } else {
      SessionBoundIsAttained(env);
      var steps :| RunSteps(env, steps).log[CodeSession(FIRST)] == env.verifyLimit;
    }
  }

  // ---- Password replacements ----

  function Token(env: Env): ResetRow {
    ResetRow(0, env.hashSecret("1"), env.policy.resetTtl, None)
  }

  /** The hash of the replacement with this number: two passwords in turn, so that each one changes the row. */
  function NewHash(replacement: nat): string {
    if replacement % 2 == 0 then "a" else "b"
  }

  function StoredHash(replaced: nat): string {
    if replaced == 0 then "" else NewHash(replaced - 1)
  }

  /** A request that has loaded the unspent token, for the replacement with this number. */
  function Redeemer(env: Env, replacement: nat): Flow {
    ResetLoaded(0, "1", Token(env), NewHash(replacement))
  }

  /** One account at instant zero: its unspent token, what it has replaced, and the spendings that were lost. */
  ghost predicate Redeemed(env: Env, w: World, replaced: nat, lost: nat) {
    && w.now == 0 && 0 in w.tables.users && w.tables.users[0].passwordHash == StoredHash(replaced)
    && 0 in w.tables.resets && w.tables.resets[0] == Token(env)
    && w.log[PasswordReplaced(FIRST)] == replaced && w.log[SpendLost(FIRST)] == lost
  }

  lemma Asked(env: Env) returns (w: World)
    ensures Reachable(env, w) && Redeemed(env, w, 0, 0) && w.flows == map[]
  {
    EmptyIsReachable(env);
    var created := AuthSequential.CreatesTheAccount(env, EMPTY_WORLD, 0, 0, "", "");
    var alone := Moves(env, created, Drop(0), ENDS);
    assert alone.flows == map[] && alone.log == multiset{};
    w := AuthSequential.ForgotPasswordIsARun(env, alone, 0, 0, "1");
  }

  lemma SomePassword() returns (password: string)
    ensures PasswordIsAcceptable(password)
  {
    password := "12345678";
  }

  lemma LoadsTheToken(env: Env, w: World, r: nat, replacement: nat, replaced: nat, lost: nat) returns (next: World)
    requires Reachable(env, w) && Redeemed(env, w, replaced, lost) && r !in w.flows
    requires Tally(w.flows, Resetting(0)) < env.resetLimit
    ensures Reachable(env, next) && Redeemed(env, next, replaced, lost)
    ensures next.flows == w.flows[r := Redeemer(env, replacement)]
  {
    var password := SomePassword();
    next := Begin(env, w, StartReset(r, 0, "1", password, NewHash(replacement)), Redeemer(env, replacement));
  }

  lemma Replaces(env: Env, w: World, r: nat, replaced: nat, lost: nat) returns (next: World)
    requires env.policy.resetTtl > 0
    requires Reachable(env, w) && Redeemed(env, w, replaced, lost)
    requires r in w.flows && w.flows[r] == Redeemer(env, replaced)
    ensures Reachable(env, next) && Redeemed(env, next, replaced + 1, lost)
    ensures next.flows == w.flows[r := ResetReplaced(FIRST, "1", 0)]
  {
    var hash := NewHash(replaced);
    var usable := Moves(env, w, CheckReset(r), Plan(Some(ResetUsable(FIRST, "1", hash, 0)), NoStatement,
                                                    multiset{ResetAccepted(FIRST, "1", 0, Token(env))}));
    next := Moves(env, usable, ReplacePassword(r),
                  Plan(Some(ResetReplaced(FIRST, "1", 0)), SetPassword(0, hash), multiset{PasswordReplaced(FIRST)}));
  }

  lemma LosesTheSpending(env: Env, w: World, replaced: nat, lost: nat) returns (next: World)
    requires Reachable(env, w) && Redeemed(env, w, replaced, lost) && w.flows == map[0 := ResetReplaced(FIRST, "1", 0)]
    ensures Reachable(env, next) && Redeemed(env, next, replaced, lost + 1) && next.flows == map[]
  {
    next := Moves(env, w, Drop(0), Plan(None, NoStatement, multiset{SpendLost(FIRST)}));
  }

  lemma {:induction false} LosesMany(env: Env, lost: nat) returns (w: World)
    requires env.policy.resetTtl > 0 && env.resetLimit > 0
    ensures Reachable(env, w) && Redeemed(env, w, lost, lost) && w.flows == map[]
  {
    if lost == 0 {
      w := Asked(env);
    } else {
      var before := LosesMany(env, lost - 1);
      NobodyIsCounted(Resetting(0));
      var loaded := LoadsTheToken(env, before, 0, lost - 1, lost - 1, lost - 1);
      var replaced := Replaces(env, loaded, 0, lost - 1, lost - 1);
      assert replaced.flows == map[0 := ResetReplaced(FIRST, "1", 0)];
      w := LosesTheSpending(env, replaced, lost, lost - 1);
    }
  }

  /** So many requests that have loaded the token, for the replacements from this number on. */
  ghost predicate AreRedeeming(env: Env, flows: map<nat, Flow>, first: nat, size: nat) {
    Numbered(flows, size, Resetting(0)) && forall r :: r in flows ==> flows[r] == Redeemer(env, first + r)
  }

  lemma RedeemersGrow(env: Env, flows: map<nat, Flow>, first: nat, size: nat)
    requires AreRedeeming(env, flows, first, size)
    ensures size !in flows && AreRedeeming(env, flows[size := Redeemer(env, first + size)], first, size + 1)
  {
    OneMoreIsCounted(flows, size, Redeemer(env, first + size), Resetting(0));
  }

  lemma OneMoreRedeemer(env: Env, w: World, size: nat, replaced: nat, lost: nat) returns (next: World)
    requires Reachable(env, w) && Redeemed(env, w, replaced, lost)
    requires size < env.resetLimit && AreRedeeming(env, w.flows, replaced, size)
    ensures Reachable(env, next) && Redeemed(env, next, replaced, lost)
    ensures AreRedeeming(env, next.flows, replaced, size + 1)
  {
    RedeemersGrow(env, w.flows, replaced, size);
    next := LoadsTheToken(env, w, size, replaced + size, replaced, lost);
  }

  lemma {:induction false} AllLoadToRedeem(env: Env, lost: nat, size: nat) returns (w: World)
    requires env.policy.resetTtl > 0 && env.resetLimit > 0 && size <= env.resetLimit
    ensures Reachable(env, w) && Redeemed(env, w, lost, lost) && AreRedeeming(env, w.flows, lost, size)
  {
    if size == 0 {
      w := LosesMany(env, lost);
      NobodyIsCounted(Resetting(0));
    } else {
      var before := AllLoadToRedeem(env, lost, size - 1);
      w := OneMoreRedeemer(env, before, size - 1, lost, lost);
    }
  }

  ghost predicate StillRedeeming(env: Env, flows: map<nat, Flow>, first: nat, size: nat, done: nat) {
    forall r: nat :: done <= r < size ==> r in flows && flows[r] == Redeemer(env, first + r)
  }

  lemma OneMoreReplaces(env: Env, w: World, first: nat, size: nat, done: nat) returns (next: World)
    requires env.policy.resetTtl > 0 && done < size
    requires Reachable(env, w) && Redeemed(env, w, first + done, first)
    requires StillRedeeming(env, w.flows, first, size, done)
    ensures Reachable(env, next) && Redeemed(env, next, first + done + 1, first)
    ensures StillRedeeming(env, next.flows, first, size, done + 1)
  {
    next := Replaces(env, w, done, first + done, first);
  }

  lemma {:induction false} AllReplace(env: Env, lost: nat, size: nat, done: nat) returns (w: World)
    requires env.policy.resetTtl > 0 && env.resetLimit > 0 && done <= size <= env.resetLimit
    ensures Reachable(env, w) && Redeemed(env, w, lost + done, lost)
    ensures StillRedeeming(env, w.flows, lost, size, done)
  {
    if done == 0 {
      w := AllLoadToRedeem(env, lost, size);
    } else {
      var before := AllReplace(env, lost, size, done - 1);
      w := OneMoreReplaces(env, before, lost, size, done - 1);
    }
  }

  /**
   For every limit and every number of lost spendings some run replaces the
   password as often as the bound allows, each time by another one.
   */
  lemma ResetBoundIsAttained(env: Env, lost: nat)
    requires env.policy.resetTtl > 0 && env.resetLimit > 0
    ensures exists steps :: var log := RunSteps(env, steps).log;
              log[PasswordReplaced(FIRST)] == env.resetLimit + lost && log[SpendLost(FIRST)] == lost
  {
    var w := AllReplace(env, lost, env.resetLimit, env.resetLimit);
    var steps :| RunSteps(env, steps) == w;
    assert RunSteps(env, steps).log[PasswordReplaced(FIRST)] == env.resetLimit + lost;
  }

  /** No run with at most so many lost spendings replaces two passwords with one token. */
  ghost predicate TokensAreSingleUse(env: Env, lost: nat) {
    forall steps, k :: var log := RunSteps(env, steps).log;
      log[SpendLost(k)] <= lost ==> log[PasswordReplaced(k)] <= 1
  }

  /**
   A token replaces at most one password in every run exactly when resets do
   not overlap and no spending is lost, or no reset is admitted at all.
   */
  lemma WhenTokensAreSingleUse(env: Env, lost: nat)
    requires env.Valid() && env.policy.resetTtl > 0
    ensures TokensAreSingleUse(env, lost) <==> env.resetLimit == 0 || (env.resetLimit == 1 && lost == 0)
  {
    if env.resetLimit == 0 || (env.resetLimit == 1 && lost == 0) {
      forall steps, k | RunSteps(env, steps).log[SpendLost(k)] <= lost
        ensures RunSteps(env, steps).log[PasswordReplaced(k)] <= 1
      {
        TokensReplaceFewPasswords(env, steps, k);
        NobodyDoesNothing(env, steps, k);
      }
    } else {
      ResetBoundIsAttained(env, lost);
      var steps :| RunSteps(env, steps).log[PasswordReplaced(FIRST)] == env.resetLimit + lost &&
                   RunSteps(env, steps).log[SpendLost(FIRST)] == lost;
    }
  }
}
