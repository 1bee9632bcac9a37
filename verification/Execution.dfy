/** One claim run to its end: the loop of `execute` as a function, and as a series of turns of the task queue. */
module Execution {
  import opened Common
  import opened Steps
  import opened TaskQueue

  /** The row a claim writes, and everything it did outside on the way. */
  datatype ClaimRun = ClaimRun(row: Row, effects: seq<Effect>)

  /** What running step k with a context and the next approval id does. */
  type Stepper = (nat, Ctx, int) -> StepResult

  function Runner(steps: seq<Step>, ticket: Option<int>, env: Env): Stepper
  {
    (k: nat, ctx: Ctx, newId: int) =>
      if k < |steps| then RunStep(steps[k], k, ticket, ctx, newId, env) else StepResult(Advance, ctx, [])
  }

  /** The loop of `execute` over a list of `n` steps; a list that reached JUMP would make it run forever. */
  function Loop(run: Stepper, n: nat, row: Row, ctx: Ctx, newId: int, now: int): ClaimRun
    requires n <= JUMP
    decreases n - row.step
  {
    if row.step >= n then ClaimRun(row.(ctx := ctx, status := Done), [])
    else
      var r := run(row.step, ctx, newId);
      match Settle(row, r, now)
      case Save(row') => ClaimRun(row', r.effects)
      case Next(row', ctx') =>
        var rest := Loop(run, n, row', ctx', newId, now);
        ClaimRun(rest.row, r.effects + rest.effects)
  }

  predicate Fits(plan: Option<seq<Step>>) { |plan.GetOr([])| <= JUMP }

  function Execute(plan: Option<seq<Step>>, row: Row, ctx: Ctx, newId: int, env: Env, now: int): ClaimRun
    requires Fits(plan)
  {
    if plan.None? then ClaimRun(row.(status := Failed, error := "workflow"), [])
    else Loop(Runner(plan.value, row.ticket, env), |plan.value|, row, ctx, newId, now)
  }

  /** A claim is a series of loop iterations of the state machine that ends with the worker idle. */
  lemma {:induction false} ExecuteIsTurns(plans: Plans, s: World, w: int, newId: int, env: Env, now: int)
    returns (turns: seq<Label>)
    requires WorkerAt(s, w).Running? && newId !in s.approvals && Fits(plans(WorkerAt(s, w).id))
    ensures forall l :: l in turns ==> l == TakeTurn(w, newId, env, now)
    ensures Valid(plans, s, turns)
    ensures var Running(id, row, ctx) := WorkerAt(s, w);
            Run(plans, s, turns).rows == s.rows[id := Execute(plans(id), row, ctx, newId, env, now).row]
    ensures WorkerAt(Run(plans, s, turns), w).Idle?
    decreases |plans(WorkerAt(s, w).id).GetOr([])| - WorkerAt(s, w).row.step
  {
    var Running(id, row, ctx) := WorkerAt(s, w);
    var l := TakeTurn(w, newId, env, now);
    var s' := ApplyTurn(plans, s, w, newId, env, now);
    match Iterate(plans(id), row, ctx, newId, env, now) {
      case Save(_) =>
        turns := [l];
        assert turns[1..] == [];
        assert Valid(plans, s', []);
      case Next(row', ctx') =>
        NextAsksNothing(plans(id), id, row, ctx, newId, env, now);
        var rest := ExecuteIsTurns(plans, s', w, newId, env, now);
        turns := [l] + rest;
        assert turns[1..] == rest;
    }
  }

  lemma NextAsksNothing(plan: Option<seq<Step>>, t: int, row: Row, ctx: Ctx, newId: int, env: Env, now: int)
    requires Iterate(plan, row, ctx, newId, env, now).Next?
    ensures TurnEvents(plan, t, row, ctx, newId, env) == [Entered(t, row.step), Succeeded(t, row.step)]
    ensures var row' := Iterate(plan, row, ctx, newId, env, now).row; row'.ticket == row.ticket
  {
  }

  /** A claim that ends in an error stores the step it failed at, but the context it started from. */
  lemma {:induction false} FailedClaimKeepsOldContext(run: Stepper, n: nat, row: Row, ctx: Ctx, newId: int, now: int)
    requires n <= JUMP && row.status == Processing
    ensures var claim := Loop(run, n, row, ctx, newId, now);
            claim.row.status == Pending || claim.row.status == Failed ==>
              claim.row.ctx == row.ctx && row.step <= claim.row.step < n
    decreases n - row.step
  {
    if row.step < n && run(row.step, ctx, newId).outcome.Advance? {
      FailedClaimKeepsOldContext(run, n, row.(step := row.step + 1, attempts := 0), run(row.step, ctx, newId).ctx, newId, now);
    }
  }
}
