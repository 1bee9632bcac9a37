/**
 Termination of the task queue, in every run: attempts stay below the limit, claims are bounded with a surcharge for each
 claim or resume that acts on an outdated snapshot, and a rejected task ends failed.
 */
module TaskBounds {
  import opened Common
  import opened Steps
  import opened TaskQueue
  import opened TaskOrder

  // ---------------------------------------------------------------- attempts

  predicate HasAttempts(row: Row) { row.attempts < MAX_STEP_ATTEMPTS }

  /** Every row that can still be claimed, and every copy in somebody's hands, has attempts left. */
  ghost predicate CopiesSane(s: World)
  {
    && (forall t :: t in s.rows && (s.rows[t].status == Pending || s.rows[t].status == WaitingUser) ==> HasAttempts(s.rows[t]))
    && (forall w :: w in s.workers && s.workers[w].Selected? ==> HasAttempts(s.workers[w].snap))
    && (forall w :: w in s.workers && s.workers[w].Running? ==> s.workers[w].id in s.rows && HasAttempts(s.workers[w].row))
    && (forall c :: c in s.calls && s.calls[c].Fetched? ==> s.calls[c].task in s.rows && HasAttempts(s.calls[c].snap))
  }

  lemma TurnKeepsSane(plans: Plans, s: World, w: int, newId: int, env: Env, now: int)
    requires CopiesSane(s) && WorkerAt(s, w).Running?
    ensures CopiesSane(ApplyTurn(plans, s, w, newId, env, now))
  {
    var Running(id, row, ctx) := WorkerAt(s, w);
    TurnLeavesAttempts(plans(id), row, ctx, newId, env, now);
  }

  lemma TurnLeavesAttempts(plan: Option<seq<Step>>, row: Row, ctx: Ctx, newId: int, env: Env, now: int)
    requires HasAttempts(row)
    ensures var turn := Iterate(plan, row, ctx, newId, env, now);
            turn.Next? || turn.row.status == Pending || turn.row.status == WaitingUser ==> HasAttempts(turn.row)
  {
  }

  lemma StepKeepsSane(plans: Plans, s: World, l: Label)
    requires CopiesSane(s) && Enabled(plans, s, l)
    ensures CopiesSane(Apply(plans, s, l))
  {
    if l.TakeTurn? {
      TurnKeepsSane(plans, s, l.w, l.newId, l.env, l.now);
    }
  }

  lemma {:induction false} RunKeepsSane(plans: Plans, s: World, ls: seq<Label>)
    requires CopiesSane(s) && Valid(plans, s, ls)
    ensures CopiesSane(Run(plans, s, ls))
    decreases ls
  {
    if ls != [] {
      StepKeepsSane(plans, s, ls[0]);
      RunKeepsSane(plans, Apply(plans, s, ls[0]), ls[1..]);
    }
  }

  /** MAIN RESULT. In every run whatsoever, a task saved as pending or waiting has attempts left. */
  lemma AttemptsStayBelowLimit(plans: Plans, ls: seq<Label>, t: int)
    requires Valid(plans, START, ls)
    requires var s := Run(plans, START, ls); t in s.rows && (s.rows[t].status == Pending || s.rows[t].status == WaitingUser)
    ensures Run(plans, START, ls).rows[t].attempts < 3
  {
    RunKeepsSane(plans, START, ls);
  }

  // ---------------------------------------------------------------- claims

  /** The failed claims a copy can still go through: two for each step not passed, less those it has used. */
  function Left(n: nat, row: Row): nat
  {
    if row.step >= n || row.attempts > 2 then 0 else 2 * (n - row.step) - row.attempts
  }

  /** The claims that a stored row stands for; the copy in progress stands for a row that is being processed. */
  function OwedBy(n: nat, row: Row): nat
  {
    match row.status
    case Pending => Left(n, row) + 1
    case WaitingUser => Left(n, row)
    case _ => 0
  }

  function Owed(n: nat, rows: map<int, Row>, t: int): nat
  {
    if t in rows then OwedBy(n, rows[t]) else 2 * n + 1
  }

  /** The price of `k` steps on outdated snapshots. */
  function Surcharge(n: nat, k: nat): nat
  {
    if k == 0 then 0 else 2 * n + Surcharge(n, k - 1)
  }

  lemma {:induction false} SurchargeIs(n: nat, k: nat)
    ensures Surcharge(n, k) == 2 * n * k
  {
    if k > 0 {
      SurchargeIs(n, k - 1);
      assert 2 * n * k == 2 * n * (k - 1) + 2 * n;
    }
  }

  function Share(n: nat, t: int, worker: Worker): nat
  {
    if worker.Running? && worker.id == t then Left(n, worker.row) else 0
  }

  /** What all running copies of task `t` have left; under exclusion there is at most one. */
  ghost function Shares(n: nat, t: int, workers: map<int, Worker>): nat
    decreases |workers|
  {
    if exists w :: w in workers then
      var w :| w in workers;
      Share(n, t, workers[w]) + Shares(n, t, workers - {w})
    else 0
  }

  lemma {:induction false} SharesRemove(n: nat, t: int, workers: map<int, Worker>, w: int)
    requires w in workers
    ensures Shares(n, t, workers) == Share(n, t, workers[w]) + Shares(n, t, workers - {w})
    decreases |workers|
  {
    var v :| v in workers && Shares(n, t, workers) == Share(n, t, workers[v]) + Shares(n, t, workers - {v});
    if v != w {
      SharesRemove(n, t, workers - {v}, w);
      SharesRemove(n, t, workers - {w}, v);
      assert workers - {v} - {w} == workers - {w} - {v};
    }
  }

  lemma SharesUpdate(n: nat, t: int, workers: map<int, Worker>, w: int, worker: Worker)
    ensures Shares(n, t, workers[w := worker])
         == Shares(n, t, workers) + Share(n, t, worker) - (if w in workers then Share(n, t, workers[w]) else 0)
  {
    SharesRemove(n, t, workers[w := worker], w);
    assert workers[w := worker] - {w} == workers - {w};
    if w in workers {
      SharesRemove(n, t, workers, w);
    } else {
      assert workers - {w} == workers;
    }
  }

  /** The step acts on a snapshot of task `t` whose step or attempts are not the row's any more. */
  ghost predicate Outdated(s: World, l: Label, t: int)
  {
    || (l.Claim? && WorkerAt(s, l.w).Selected? && WorkerAt(s, l.w).id == t && Claimable(s, t)
        && (WorkerAt(s, l.w).snap.step != s.rows[t].step || WorkerAt(s, l.w).snap.attempts != s.rows[t].attempts))
    || (l.Store? && l.c in s.calls && s.calls[l.c].Fetched? && s.calls[l.c].task == t && t in s.rows
        && (s.rows[t].status != WaitingUser
            || s.calls[l.c].snap.step != s.rows[t].step || s.calls[l.c].snap.attempts != s.rows[t].attempts))
  }

  ghost function OutdatedIn(plans: Plans, s: World, ls: seq<Label>, t: int): nat
    decreases ls
  {
    if ls == [] || !Enabled(plans, s, ls[0]) then 0
    else (if Outdated(s, ls[0], t) then 1 else 0) + OutdatedIn(plans, Apply(plans, s, ls[0]), ls[1..], t)
  }

  /** What task `t` has been claimed and may still be claimed without another resume. */
  ghost function Debt(n: nat, s: World, t: int): int
  {
    LedgerOf(s.trace, t).claims - LedgerOf(s.trace, t).resumes + Shares(n, t, s.workers) + Owed(n, s.rows, t)
  }

  ghost function Extra(n: nat, s: World, l: Label, t: int): nat { if Outdated(s, l, t) then 2 * n else 0 }

  /** One iteration: what the copy had left covers the copy or the row it leaves behind. */
  lemma TurnSpends(plan: Option<seq<Step>>, copy: Row, ctx: Ctx, newId: int, env: Env, now: int)
    requires |plan.GetOr([])| <= JUMP && HasAttempts(copy)
    ensures var n := |plan.GetOr([])|;
            var turn := Iterate(plan, copy, ctx, newId, env, now);
            && (turn.Next? ==> Left(n, turn.row) <= Left(n, copy))
            && (turn.Save? ==> OwedBy(n, turn.row) <= Left(n, copy))
  {
  }

  lemma TurnPays(plans: Plans, s: World, w: int, newId: int, env: Env, now: int, t: int)
    requires |StepsOf(plans, t)| <= JUMP && CopiesSane(s) && Enabled(plans, s, TakeTurn(w, newId, env, now))
    ensures Debt(|StepsOf(plans, t)|, ApplyTurn(plans, s, w, newId, env, now), t) <= Debt(|StepsOf(plans, t)|, s, t)
  {
    var n := |StepsOf(plans, t)|;
    var Running(id, copy, ctx) := WorkerAt(s, w);
    LedgerTurn(plans(id), s.trace, id, copy, ctx, newId, env, t);
    SharesUpdate(n, t, s.workers, w, ApplyTurn(plans, s, w, newId, env, now).workers[w]);
    if id == t {
      TurnSpends(plans(t), copy, ctx, newId, env, now);
    }
  }

  lemma ClaimPays(plans: Plans, s: World, w: int, t: int)
    requires Enabled(plans, s, Claim(w))
    ensures var n := |StepsOf(plans, t)|; Debt(n, ApplyClaim(s, w), t) <= Debt(n, s, t) + Extra(n, s, Claim(w), t)
  {
    var n := |StepsOf(plans, t)|;
    LedgerSnoc(s.trace, Claimed(WorkerAt(s, w).id), t);
    SharesUpdate(n, t, s.workers, w, ApplyClaim(s, w).workers[w]);
    assert Left(n, WorkerAt(s, w).snap) <= 2 * n;
  }

  lemma StorePays(plans: Plans, s: World, c: int, now: int, t: int)
    requires CopiesSane(s) && Enabled(plans, s, Store(c, now))
    ensures var n := |StepsOf(plans, t)|;
            Debt(n, Apply(plans, s, Store(c, now)), t) <= Debt(n, s, t) + Extra(n, s, Store(c, now), t)
  {
    var n, call := |StepsOf(plans, t)|, s.calls[c];
    LedgerSnoc(s.trace, ResumeSaved(call.task), t);
    assert OwedBy(n, Resumed(call.snap, call.input, now)) == Left(n, call.snap) + 1;
    assert Left(n, call.snap) <= 2 * n;
  }

  lemma StepPays(plans: Plans, s: World, l: Label, t: int)
    requires |StepsOf(plans, t)| <= JUMP && CopiesSane(s) && Enabled(plans, s, l)
    ensures var n := |StepsOf(plans, t)|; Debt(n, Apply(plans, s, l), t) <= Debt(n, s, t) + Extra(n, s, l, t)
  {
    var n := |StepsOf(plans, t)|;
    match l {
      case TakeTurn(w, newId, env, now) => TurnPays(plans, s, w, newId, env, now, t);
      case Claim(w) => ClaimPays(plans, s, w, t);
      case Store(c, now) => StorePays(plans, s, c, now, t);
      case Select(w, now) => SharesUpdate(n, t, s.workers, w, Apply(plans, s, l).workers[w]);
      case Crash(w) => SharesUpdate(n, t, s.workers, w, Idle);
      case Decide(approval, verdict, _) => LedgerSnoc(s.trace, Decided(approval, verdict), t);
      case _ =>
    }
  }

  lemma {:induction false} RunPays(plans: Plans, s: World, ls: seq<Label>, t: int)
    requires |StepsOf(plans, t)| <= JUMP && CopiesSane(s) && Valid(plans, s, ls)
    ensures var n := |StepsOf(plans, t)|;
            Debt(n, Run(plans, s, ls), t) <= Debt(n, s, t) + Surcharge(n, OutdatedIn(plans, s, ls, t))
    decreases ls
  {
    if ls != [] {
      StepKeepsSane(plans, s, ls[0]);
      StepPays(plans, s, ls[0], t);
      RunPays(plans, Apply(plans, s, ls[0]), ls[1..], t);
    }
  }

  /**
   MAIN RESULT. In every run whatsoever a task is claimed at most 2 * |steps| + resumes + 1 times, plus 2 * |steps|
   for each claim or resume that acted on an outdated snapshot of it.
   */
  lemma ClaimsAreBounded(plans: Plans, ls: seq<Label>, t: int)
    requires |StepsOf(plans, t)| <= JUMP && Valid(plans, START, ls)
    ensures var l, n := LedgerOf(Run(plans, START, ls).trace, t), |StepsOf(plans, t)|;
            l.claims <= 2 * n + l.resumes + 1 + 2 * n * OutdatedIn(plans, START, ls, t)
  {
    RunPays(plans, START, ls, t);
    SurchargeIs(|StepsOf(plans, t)|, OutdatedIn(plans, START, ls, t));
  }

  // ---------------------------------------------------------------- a rejected approval

  /** Task `t` stands at an approval step and its context holds a decision other than true. */
  predicate AtRejection(steps: seq<Step>, row: Row)
  {
    row.step < |steps| && steps[row.step].Approval?
    && DecisionKey(steps[row.step].id) in row.ctx && row.ctx[DecisionKey(steps[row.step].id)] != Bool(true)
  }

  ghost predicate Doomed(plans: Plans, s: World, t: int)
  {
    t in s.rows && AtRejection(StepsOf(plans, t), s.rows[t])
    && (s.rows[t].status == Failed || ((s.rows[t].status == Pending || s.rows[t].status == Processing)
                                       && s.rows[t].attempts < MAX_STEP_ATTEMPTS))
    && (s.rows[t].status == Failed ==> s.rows[t].attempts == MAX_STEP_ATTEMPTS)
    && (forall w :: RunsTask(s, w, t) ==>
          s.workers[w].row == s.rows[t] && s.workers[w].ctx == s.rows[t].ctx)
  }

  /** The failures so far, and the one a claim in progress will add. */
  function Spent(row: Row): nat { row.attempts + if row.status == Processing then 1 else 0 }

  /** The step under the doomed task fails: same step, same context, one failure more. */
  lemma DoomedIteration(plan: Option<seq<Step>>, row: Row, newId: int, env: Env, now: int)
    requires plan.Some? && AtRejection(plan.value, row) && row.status == Processing && row.attempts < MAX_STEP_ATTEMPTS
    ensures var turn := Iterate(plan, row, row.ctx, newId, env, now);
            turn.Save? && turn.row.step == row.step && turn.row.ctx == row.ctx && turn.row.attempts == row.attempts + 1
            && turn.row.status == if turn.row.attempts == MAX_STEP_ATTEMPTS then Failed else Pending
  {
  }

  /** `s'` differs from `s` for task `t` only as a doomed task may. */
  ghost predicate DoomedStep(plans: Plans, s: World, s': World, t: int)
  {
    t in s.rows && Doomed(plans, s', t)
    && s'.rows[t].step == s.rows[t].step && s'.rows[t].ctx == s.rows[t].ctx
    && Spent(s'.rows[t]) - LedgerOf(s'.trace, t).claims == Spent(s.rows[t]) - LedgerOf(s.trace, t).claims
  }

  lemma TurnKeepsDoomed(plans: Plans, s: World, w: int, newId: int, env: Env, now: int, t: int)
    requires Exclusive(s) && Doomed(plans, s, t) && Enabled(plans, s, TakeTurn(w, newId, env, now))
    ensures DoomedStep(plans, s, ApplyTurn(plans, s, w, newId, env, now), t)
  {
    var Running(id, copy, ctx) := WorkerAt(s, w);
    assert RunsTask(s, w, id);
    LedgerTurn(plans(id), s.trace, id, copy, ctx, newId, env, t);
    if id == t {
      DoomedTurn(plans, s, w, newId, env, now, t);
    } else {
      OtherTurn(plans, s, w, newId, env, now, t);
    }
  }

  lemma DoomedTurn(plans: Plans, s: World, w: int, newId: int, env: Env, now: int, t: int)
    requires Exclusive(s) && Doomed(plans, s, t) && RunsTask(s, w, t)
    ensures var row, row' := s.rows[t], ApplyTurn(plans, s, w, newId, env, now).rows[t];
            && row'.step == row.step && row'.ctx == row.ctx && Spent(row') == Spent(row)
            && Iterate(plans(t), row, row.ctx, newId, env, now).Save?
    ensures Doomed(plans, ApplyTurn(plans, s, w, newId, env, now), t)
  {
    var s' := ApplyTurn(plans, s, w, newId, env, now);
    DoomedIteration(plans(t), s.rows[t], newId, env, now);
    forall v ensures !RunsTask(s', v, t) {
      assert RunsTask(s', v, t) ==> RunsTask(s, v, t);
    }
  }

  lemma OtherTurn(plans: Plans, s: World, w: int, newId: int, env: Env, now: int, t: int)
    requires Doomed(plans, s, t) && WorkerAt(s, w).Running? && WorkerAt(s, w).id != t
    ensures var s' := ApplyTurn(plans, s, w, newId, env, now); Doomed(plans, s', t) && s'.rows[t] == s.rows[t]
  {
    var s' := ApplyTurn(plans, s, w, newId, env, now);
    forall v | RunsTask(s', v, t) ensures RunsTask(s, v, t) && s'.workers[v] == s.workers[v] { }
  }

  /**
   The exact condition for one claim: a claim of a doomed pending task keeps it doomed if and only if it acts on the row as
   it is. An older snapshot brings back a context without the verdict.
   */
  lemma ClaimKeepsDoomedIff(plans: Plans, s: World, w: int, t: int)
    requires Exclusive(s) && Doomed(plans, s, t) && Enabled(plans, s, Claim(w))
    requires WorkerAt(s, w).id == t && Claimable(s, t)
    ensures Doomed(plans, ApplyClaim(s, w), t)
            <==> WorkerAt(s, w).snap.(status := Processing) == s.rows[t].(status := Processing)
  {
    var s' := ApplyClaim(s, w);
    assert RunsTask(s', w, t);
    forall v | v != w && RunsTask(s', v, t) ensures RunsTask(s, v, t) { }
  }

  /** Claims of task `t` act on the row as it is, and no resume is saved over it unless it still waits. */
  ghost predicate Current(s: World, l: Label, t: int)
  {
    && (l.Claim? && WorkerAt(s, l.w).Selected? && WorkerAt(s, l.w).id == t && Claimable(s, t) ==>
          WorkerAt(s, l.w).snap.(status := Processing) == s.rows[t].(status := Processing))
    && (l.Store? && l.c in s.calls && s.calls[l.c].task == t ==> t in s.rows && s.rows[t].status == WaitingUser)
  }

  ghost predicate AllCurrent(plans: Plans, s: World, ls: seq<Label>, t: int)
    decreases ls
  {
    ls == [] || (Enabled(plans, s, ls[0]) && Current(s, ls[0], t) && AllCurrent(plans, Apply(plans, s, ls[0]), ls[1..], t))
  }

  lemma ClaimKeepsDoomed(plans: Plans, s: World, w: int, t: int)
    requires Exclusive(s) && Doomed(plans, s, t) && Enabled(plans, s, Claim(w)) && Current(s, Claim(w), t)
    ensures DoomedStep(plans, s, ApplyClaim(s, w), t)
  {
    LedgerSnoc(s.trace, Claimed(WorkerAt(s, w).id), t);
    forall v | v != w && RunsTask(ApplyClaim(s, w), v, t) ensures RunsTask(s, v, t) { }
  }

  lemma StepKeepsDoomed(plans: Plans, s: World, l: Label, t: int)
    requires Exclusive(s) && FetchedWaiting(s) && Doomed(plans, s, t) && Enabled(plans, s, l) && Current(s, l, t)
    ensures DoomedStep(plans, s, Apply(plans, s, l), t)
  {
    if l.TakeTurn? {
      TurnKeepsDoomed(plans, s, l.w, l.newId, l.env, l.now, t);
    } else if l.Claim? {
      ClaimKeepsDoomed(plans, s, l.w, t);
    } else {
      if l.Store? { LedgerSnoc(s.trace, ResumeSaved(s.calls[l.c].task), t); }
      if l.Decide? { LedgerSnoc(s.trace, Decided(l.approval, l.verdict), t); }
      var s' := Apply(plans, s, l);
      assert t in s'.rows && s'.rows[t] == s.rows[t];
      forall v | RunsTask(s', v, t) ensures RunsTask(s, v, t) && s'.workers[v] == s.workers[v] { }
    }
  }

  /**
   How a task gets there: a resume at its approval step with anything but a true verdict, be it a rejection or a form
   field of that name holding the string "true".
   */
  lemma RejectionDooms(plans: Plans, s: World, c: int, now: int)
    requires CopiesSane(s) && Enabled(plans, s, Store(c, now)) && QuietStore(s, Store(c, now))
    requires var call := s.calls[c];
             var steps := StepsOf(plans, call.task);
             && call.snap.step < |steps| && steps[call.snap.step].Approval?
             && DecisionKey(steps[call.snap.step].id) in call.input
             && call.input[DecisionKey(steps[call.snap.step].id)] != Bool(true)
    ensures Doomed(plans, Apply(plans, s, Store(c, now)), s.calls[c].task)
  {
    var t := s.calls[c].task;
    forall w | RunsTask(Apply(plans, s, Store(c, now)), w, t) ensures RunsTask(s, w, t) { }
  }

  /**
   MAIN RESULT. As long as claims act on the row as it is, a task that holds a rejected decision at its current step
   never moves off that step; it is claimed at most as often as it has attempts left, and the claim that uses up the
   last attempt leaves it failed.
   */
  lemma {:induction false} RejectionIsFinal(plans: Plans, s: World, ls: seq<Label>, t: int)
    requires Exclusive(s) && FetchedWaiting(s) && Doomed(plans, s, t)
    requires Valid(plans, s, ls) && AllQuiet(plans, s, ls) && AllCurrent(plans, s, ls, t)
    ensures var s' := Run(plans, s, ls);
            var claims := LedgerOf(s'.trace, t).claims - LedgerOf(s.trace, t).claims;
            && Doomed(plans, s', t)
            && s'.rows[t].step == s.rows[t].step
            && claims <= MAX_STEP_ATTEMPTS - Spent(s.rows[t])
            && (claims == MAX_STEP_ATTEMPTS - Spent(s.rows[t]) && s'.rows[t].status != Processing ==> s'.rows[t].status == Failed)
            && claims == Spent(s'.rows[t]) - Spent(s.rows[t])
    decreases ls
  {
    if ls != [] {
      StepKeepsDoomed(plans, s, ls[0], t);
      StepKeepsExclusive(plans, s, ls[0]);
      RejectionIsFinal(plans, Apply(plans, s, ls[0]), ls[1..], t);
    }
  }
}
