/**
 Building runs of the interleaved auth machine step by step: which worlds some
 run reaches, and how one request among others moves on.
 */
module AuthRuns {
  import opened Wrappers
  import opened AuthProtocol

  ghost predicate Reachable(env: Env, w: World) {
    exists steps :: RunSteps(env, steps) == w
  }

  lemma EmptyIsReachable(env: Env)
    ensures Reachable(env, EMPTY_WORLD)
  {
    assert RunSteps(env, []) == EMPTY_WORLD;
  }

  lemma StepsReach(env: Env, w: World, step: Step)
    requires Reachable(env, w)
    ensures Reachable(env, Do(env, w, step))
  {
    var steps :| RunSteps(env, steps) == w;
    assert (steps + [step])[..|steps|] == steps;
    assert RunSteps(env, steps + [step]) == Do(env, w, step);
  }

  /** The first step of a request. */
  lemma Begin(env: Env, w: World, step: Step, flow: Flow) returns (next: World)
    requires Reachable(env, w) && !step.Tick? && !step.SetZone? && step.r !in w.flows
    requires StartPlan(env, w, step) == Some(Goes(flow))
    ensures Reachable(env, next) && next == World(w.now, w.tables, w.flows[step.r := flow], w.log)
  {
    next := Do(env, w, step);
    StepsReach(env, w, step);
    assert w.log + multiset{} == w.log;
  }

  /** A later step of a request, among the others. */
  lemma Advance(env: Env, w: World, step: Step, flows: map<nat, Flow>, flow: Flow, plan: Plan) returns (next: World)
    requires Reachable(env, w) && !step.Tick? && !step.SetZone? && step.r !in flows
    requires w.flows == flows[step.r := flow] && NextPlan(env, w, step, flow) == Some(plan)
    ensures Reachable(env, next)
    ensures next == World(w.now, Execute(w.tables, plan.statement),
                          if plan.flow.Some? then flows[step.r := plan.flow.value] else flows, w.log + plan.notes)
  {
    next := CarryOut(w, step.r, plan);
    assert Do(env, w, step) == next;
    StepsReach(env, w, step);
    match plan.flow
    case Some(moved) => assert w.flows[step.r := moved] == flows[step.r := moved];
    case None => assert w.flows - {step.r} == flows;
  }
}
