/** Reachable states that show why each side condition of the task queue results is there. */
module QueueWitnesses {
  import opened Common
  import opened Steps
  import opened TaskQueue
  import opened ApprovalGate
  import opened TaskOrder
  import opened TaskBounds

  const CALM := Env((t, c) => Some(t), (k, v, u) => Answer(Str("")), k => true, n => "")
  const STORMY := CALM.(http := (k, v, u) => NotSent)
  /** Every task runs `steps`. */
  function Always(steps: seq<Step>): Plans { (t: int) => Some(steps) }

  const FRESH := Row(Some(1), Pending, 0, map[], 0, "", 0)

  lemma ReachSelect(plans: Plans, s: World, w: int, t: int, now: int := 0) returns (s': World)
    requires Reachable(plans, s) && s.rows.Keys == {t} && IsDue(s.rows[t], now) && WorkerAt(s, w).Idle?
    ensures s' == s.(workers := s.workers[w := Selected(t, s.rows[t])]) && Reachable(plans, s')
  {
    assert IsFirstDue(s, t, now);
    s' := Apply(plans, s, Select(w, now));
    Reach(plans, s, Select(w, now));
  }

  lemma ReachClaim(plans: Plans, s: World, w: int, t: int, now: int := 0) returns (s': World)
    requires Reachable(plans, s) && s.rows.Keys == {t} && IsDue(s.rows[t], now) && WorkerAt(s, w).Idle?
    ensures s'.rows == s.rows[t := s.rows[t].(status := Processing)]
    ensures s'.workers == s.workers[w := Running(t, s.rows[t].(status := Processing), s.rows[t].ctx)]
    ensures s'.trace == s.trace + [Claimed(t)] && s'.calls == s.calls && s'.approvals == s.approvals
    ensures Reachable(plans, s')
  {
    var mid := ReachSelect(plans, s, w, t, now);
    s' := Apply(plans, mid, Claim(w));
    Reach(plans, mid, Claim(w));
  }

  /** A form is submitted for waiting task `t` and read back by `Resume`, up to but not including the write. */
  lemma ReachFetched(plans: Plans, s: World, c: int, t: int) returns (s': World)
    requires Reachable(plans, s) && c !in s.calls && t in s.rows && s.rows[t].status == WaitingUser
    ensures s' == s.(calls := s.calls[c := Fetched(t, map[], None, s.rows[t])]) && Reachable(plans, s')
  {
    var mid := Apply(plans, s, Submit(c, t, map[]));
    Reach(plans, s, Submit(c, t, map[]));
    s' := Apply(plans, mid, Fetch(c));
    Reach(plans, mid, Fetch(c));
    assert s'.calls == s.calls[c := Fetched(t, map[], None, s.rows[t])];
  }

  lemma ReachStored(plans: Plans, s: World, c: int) returns (s': World)
    requires Reachable(plans, s) && c in s.calls && s.calls[c].Fetched?
    ensures s'.rows == s.rows[s.calls[c].task := Resumed(s.calls[c].snap, s.calls[c].input, 0)]
    ensures s'.workers == s.workers && s'.calls == s.calls - {c} && s'.approvals == s.approvals
    ensures s'.trace == s.trace + [ResumeSaved(s.calls[c].task)]
    ensures Reachable(plans, s')
  {
    s' := Apply(plans, s, Store(c, 0));
    Reach(plans, s, Store(c, 0));
  }

  lemma ReachStart(plans: Plans) returns (s: World)
    ensures s == START.(rows := map[0 := FRESH]) && Reachable(plans, s)
  {
    assert Valid(plans, START, []) && Run(plans, START, []) == START;
    s := Apply(plans, START, Enqueue(0, FRESH));
    Reach(plans, START, Enqueue(0, FRESH));
  }

  const FORM_PLAN := [HttpRequest("a", "", "u", ""), UserInput("b")]

  lemma CallTurn(row: Row, ctx: Ctx, newId: int)
    ensures row.step == 0 ==> Iterate(Some(FORM_PLAN), row, ctx, newId, CALM, 0) == Next(row.(step := 1, attempts := 0), ctx)
  {
  }

  lemma FormTurn(row: Row, ctx: Ctx, newId: int)
    ensures row.step == 1 && ResumedKey("b") !in ctx ==>
              var after := row.(ctx := ctx[ResumedKey("b") := Bool(true)], status := WaitingUser);
              Iterate(Some(FORM_PLAN), row, ctx, newId, CALM, 0) == Save(after)
  {
  }

  lemma StormyTurn(row: Row, ctx: Ctx, newId: int)
    ensures row.step == 0 && row.attempts == 0 ==>
              var turn := Iterate(Some(FORM_PLAN), row, ctx, newId, STORMY, 0);
              turn.Save? && turn.row.step == 0
  {
  }

  lemma ReachTurn(plans: Plans, s: World, w: int, row: Row, ctx: Ctx, turn: Turn) returns (s': World)
    requires Reachable(plans, s) && WorkerAt(s, w) == Running(0, row, ctx) && s.approvals == map[]
    requires plans(0) == Some(FORM_PLAN) && row.step < 2 && turn == Iterate(Some(FORM_PLAN), row, ctx, 1, CALM, 0)
    ensures Reachable(plans, s') && s'.approvals == map[] && s'.calls == s.calls
    ensures turn.Next? ==> s'.rows == s.rows && s'.workers == s.workers[w := Running(0, turn.row, turn.ctx)]
    ensures turn.Save? ==> s'.rows == s.rows[0 := turn.row] && s'.workers == s.workers[w := Idle]
  {
    s' := Apply(plans, s, TakeTurn(w, 1, CALM, 0));
    Reach(plans, s, TakeTurn(w, 1, CALM, 0));
    assert forall e :: e in TurnEvents(plans(0), 0, row, ctx, 1, CALM) ==> !e.ApprovalAsked?;
  }

  lemma ReachCalled(plans: Plans, s: World, w: int, row: Row) returns (s': World)
    requires Reachable(plans, s) && WorkerAt(s, w) == Running(0, row, map[]) && s.approvals == map[]
    requires plans(0) == Some(FORM_PLAN) && row.step == 0 && row.attempts == 0
    ensures Reachable(plans, s') && s'.approvals == map[] && s'.calls == s.calls && s'.rows == s.rows
    ensures s'.workers == s.workers[w := Running(0, row.(step := 1), map[])]
  {
    CallTurn(row, map[], 1);
    s' := ReachTurn(plans, s, w, row, map[], Next(row.(step := 1), map[]));
  }

  /** A waiting task whose second step is a form, reached through a successful first step. */
  lemma ReachForm(plans: Plans, s: World, w: int) returns (s': World)
    requires Reachable(plans, s) && s.rows == map[0 := FRESH] && WorkerAt(s, w).Idle? && s.approvals == map[]
    requires plans(0) == Some(FORM_PLAN)
    ensures Reachable(plans, s') && s'.rows.Keys == {0}
    ensures s'.rows[0].status == WaitingUser && s'.rows[0].step == 1 && s'.rows[0].due == 0
    ensures s'.workers == s.workers[w := Idle] && s'.calls == s.calls && s'.approvals == map[]
  {
    var row := FRESH.(status := Processing);
    var s1 := ReachClaim(plans, s, w, 0);
    var s2 := ReachCalled(plans, s1, w, row);
    FormTurn(row.(step := 1), map[], 1);
    s' := ReachTurn(plans, s2, w, row.(step := 1), map[],
                    Save(row.(step := 1, ctx := map[ResumedKey("b") := Bool(true)], status := WaitingUser)));
    Overwrite(s.workers, w, Running(0, row, map[]), Running(0, row.(step := 1), map[]));
    Overwrite(s.workers, w, Running(0, row.(step := 1), map[]), Idle);
  }

  /**
   The guarded UPDATE re-checks the status only. A worker whose SELECT is older than another worker's whole
   claim, pause and resume runs the task from the old snapshot and stores a smaller StepIndex.
   */
  lemma StaleClaimRewindsTask()
    ensures exists s, l ::
              Reachable(Always(FORM_PLAN), s) && Enabled(Always(FORM_PLAN), s, l)
              && 0 in s.rows && 0 in Apply(Always(FORM_PLAN), s, l).rows && Apply(Always(FORM_PLAN), s, l).rows[0].step < s.rows[0].step
  {
    var plans := Always(FORM_PLAN);
    var s0 := ReachStart(plans);
    var s1 := ReachSelect(plans, s0, 2, 0);
    var s2 := ReachForm(plans, s1, 1);
    var s3 := ReachFetched(plans, s2, 0, 0);
    var s4 := ReachStored(plans, s3, 0);
    var s5 := ReachStaleClaim(plans, s4);
    StormyTurn(FRESH.(status := Processing), map[], 1);
    var l := TakeTurn(2, 1, STORMY, 0);
    assert Enabled(plans, s5, l);
    assert s5.rows[0].step == 1 && Apply(plans, s5, l).rows[0].step == 0;
  }

  lemma ReachStaleClaim(plans: Plans, s: World) returns (s': World)
    requires Reachable(plans, s) && 0 in s.rows && s.rows[0].status == Pending && WorkerAt(s, 2) == Selected(0, FRESH)
    ensures Reachable(plans, s') && s'.rows == s.rows[0 := s.rows[0].(status := Processing)] && s'.approvals == s.approvals
    ensures s'.workers == s.workers[2 := Running(0, FRESH.(status := Processing), map[])]
    ensures s'.trace == s.trace + [Claimed(0)] && s' == ApplyClaim(s, 2)
  {
    s' := Apply(plans, s, Claim(2));
    Reach(plans, s, Claim(2));
  }

  /** Two resumes that both read the waiting row: the later write re-queues a task that is already running. */
  lemma StaleResumeBreaksExclusion()
    ensures exists s :: Reachable(Always(FORM_PLAN), s) && RunsTask(s, 1, 0) && RunsTask(s, 2, 0)
  {
    var plans := Always(FORM_PLAN);
    var s0 := ReachStart(plans);
    var s1 := ReachForm(plans, s0, 1);
    var s2 := ReachFetched(plans, s1, 0, 0);
    var s3 := ReachFetched(plans, s2, 1, 0);
    var s4 := ReachStored(plans, s3, 0);
    var s5 := ReachClaim(plans, s4, 1, 0);
    var s6 := ReachStored(plans, s5, 1);
    var s7 := ReachClaim(plans, s6, 2, 0);
    assert RunsTask(s7, 1, 0) && RunsTask(s7, 2, 0);
  }

  // ---------------------------------------------------------------- what stale claims cost

  const ASK_PLAN := [Approval("a", ""), Webhook("w", "e")]
  const ASKED := FRESH.(status := WaitingUser, ctx := map[PendingKey("a") := Num(7)])

  predicate AsksFirst(plan: seq<Step>) { |plan| > 1 && plan[0] == Approval("a", "") }

  lemma FirstAsks(plan: seq<Step>, newId: int)
    ensures AsksFirst(plan) ==>
              var row := FRESH.(status := Processing);
              && Iterate(Some(plan), row, map[], newId, CALM, 0) == Save(ASKED.(ctx := map[PendingKey("a") := Num(newId)]))
              && TurnEvents(Some(plan), 0, row, map[], newId, CALM) == [Entered(0, 0), ApprovalAsked(0, 0, newId)]
  {
  }

  lemma ReachAsking(plans: Plans, s: World, plan: seq<Step>) returns (s': World)
    requires Reachable(plans, s) && plans(0) == Some(plan) && AsksFirst(plan) && s.approvals == map[]
    requires WorkerAt(s, 1) == Running(0, FRESH.(status := Processing), map[])
    ensures Reachable(plans, s') && s'.calls == s.calls && s'.approvals == map[7 := 1]
    ensures s'.rows == s.rows[0 := ASKED] && s'.workers == s.workers[1 := Idle]
    ensures s'.trace == s.trace + [Entered(0, 0), ApprovalAsked(0, 0, 7)]
  {
    FirstAsks(plan, 7);
    s' := Apply(plans, s, TakeTurn(1, 7, CALM, 0));
    Reach(plans, s, TakeTurn(1, 7, CALM, 0));
  }

  /** Approval 7 is asked for at step 0. */
  lemma ReachAsked(plans: Plans, s: World, plan: seq<Step>) returns (s': World)
    requires Reachable(plans, s) && plans(0) == Some(plan) && AsksFirst(plan)
    requires s == START.(rows := map[0 := FRESH], workers := s.workers) && WorkerAt(s, 1).Idle?
    ensures Reachable(plans, s') && s'.rows == map[0 := ASKED] && s'.workers == s.workers[1 := Idle]
    ensures s'.approvals == map[7 := 1] && s'.calls == map[]
    ensures s'.trace == [Claimed(0), Entered(0, 0), ApprovalAsked(0, 0, 7)] && NeverAsked(s'.trace, 1)
  {
    var s1 := ReachClaim(plans, s, 1, 0);
    assert s1.trace == [Claimed(0)] && s1.rows == map[0 := FRESH.(status := Processing)];
    s' := ReachAsking(plans, s1, plan);
    assert s'.trace == [Claimed(0), Entered(0, 0), ApprovalAsked(0, 0, 7)];
    Overwrite(s.workers, 1, Running(0, FRESH.(status := Processing), map[]), Idle);
  }

  const CALL_PLAN := [HttpRequest("a", "", "u", "")]

  /** A row of task 0 after `n` failed calls. */
  function Failing(n: nat): Row
  {
    if n == 0 then FRESH else FRESH.(attempts := n, error := "request", due := Backoff(n))
  }

  lemma FailingTurn(n: nat)
    ensures n < 2 ==> Iterate(Some(CALL_PLAN), Failing(n).(status := Processing), map[], 1, STORMY, 0) == Save(Failing(n + 1))
    ensures n < 2 ==> TurnEvents(Some(CALL_PLAN), 0, Failing(n).(status := Processing), map[], 1, STORMY) == [Entered(0, 0)]
  {
  }

  /** One worker at a failing call, with `claims` claims made; worker 2 is elsewhere. */
  ghost predicate FailingState(plans: Plans, s: World, n: nat, claims: nat)
  {
    Reachable(plans, s) && s.rows == map[0 := Failing(n)] && WorkerAt(s, 1).Idle? && s.approvals == map[]
    && LedgerOf(s.trace, 0).claims == claims && LedgerOf(s.trace, 0).resumes == 0
  }

  /** A running worker's call fails and its row is pending again, unless it was the third failure. */
  lemma ReachFailed(plans: Plans, s: World, w: int, n: nat) returns (s': World)
    requires plans(0) == Some(CALL_PLAN) && n < 2 && Reachable(plans, s) && s.approvals == map[]
    requires WorkerAt(s, w) == Running(0, Failing(n).(status := Processing), map[])
    ensures Reachable(plans, s') && s'.rows == s.rows[0 := Failing(n + 1)] && s'.workers == s.workers[w := Idle]
    ensures s'.approvals == map[] && LedgerOf(s'.trace, 0) == LedgerOf(s.trace, 0)
  {
    FailingTurn(n);
    s' := Apply(plans, s, TakeTurn(w, 1, STORMY, 0));
    Reach(plans, s, TakeTurn(w, 1, STORMY, 0));
    LedgerSnoc(s.trace, Entered(0, 0), 0);
  }

  lemma ReachFailing(plans: Plans, s: World, n: nat, claims: nat) returns (s': World)
    requires plans(0) == Some(CALL_PLAN) && n < 2 && FailingState(plans, s, n, claims)
    ensures FailingState(plans, s', n + 1, claims + 1) && WorkerAt(s', 2) == WorkerAt(s, 2)
  {
    var s1 := ReachClaim(plans, s, 1, 0, 4);
    LedgerSnoc(s.trace, Claimed(0), 0);
    s' := ReachFailed(plans, s1, 1, n);
    assert s'.rows == map[0 := Failing(n + 1)];
  }

  lemma ReachTwoFailures() returns (s': World)
    ensures FailingState(Always(CALL_PLAN), s', 2, 2) && WorkerAt(s', 2) == Selected(0, FRESH)
  {
    var plans := Always(CALL_PLAN);
    var s0 := ReachStart(plans);
    var s1 := ReachSelect(plans, s0, 2, 0);
    assert s1.trace == [] && FailingState(plans, s1, 0, 0);
    var s2 := ReachFailing(plans, s1, 0, 0);
    s' := ReachFailing(plans, s2, 1, 1);
  }

  /** Worker 2 claims from its old snapshot, and its failure is the task's first one again. */
  lemma ReachReset(plans: Plans, s: World) returns (s': World)
    requires plans(0) == Some(CALL_PLAN) && FailingState(plans, s, 2, 2) && WorkerAt(s, 2) == Selected(0, FRESH)
    ensures FailingState(plans, s', 1, 3)
  {
    var s1 := ReachStaleClaim(plans, s);
    LedgerSnoc(s.trace, Claimed(0), 0);
    s' := ReachFailed(plans, s1, 2, 0);
  }

  /**
   One stale claim: a one-step task is claimed five times without a resume, twice more than 2 * |steps| + 1, and exactly as
   often as the bound for one outdated snapshot allows.
   */
  lemma StaleClaimAddsClaims()
    ensures exists s :: Reachable(Always(CALL_PLAN), s) && LedgerOf(s.trace, 0).claims == 5 && LedgerOf(s.trace, 0).resumes == 0
  {
    var plans := Always(CALL_PLAN);
    var s3 := ReachTwoFailures();
    var s5 := ReachReset(plans, s3);
    var s6 := ReachFailing(plans, s5, 1, 3);
    var s7 := ReachClaim(plans, s6, 1, 0, 4);
    LedgerSnoc(s6.trace, Claimed(0), 0);
  }

  lemma ReachRejected() returns (s': World)
    ensures Reachable(Always(ASK_PLAN), s') && Doomed(Always(ASK_PLAN), s', 0) && WorkerAt(s', 2) == Selected(0, FRESH)
    ensures s'.rows.Keys == {0} && s'.rows[0].status == Pending && s'.approvals == map[7 := 1]
  {
    var plans := Always(ASK_PLAN);
    var s0 := ReachStart(plans);
    var s1 := ReachSelect(plans, s0, 2, 0);
    var s2 := ReachAsked(plans, s1, ASK_PLAN);
    assert s2.workers == map[1 := Idle, 2 := Selected(0, FRESH)];
    s' := ReachRefused(plans, s2);
  }

  lemma ReachRefused(plans: Plans, s: World) returns (s': World)
    requires plans(0) == Some(ASK_PLAN) && Reachable(plans, s) && s.rows == map[0 := ASKED]
    requires s.approvals == map[7 := 1] && s.calls == map[] && forall w :: w in s.workers ==> !s.workers[w].Running?
    ensures Reachable(plans, s') && Doomed(plans, s', 0) && s'.workers == s.workers
    ensures s'.rows.Keys == {0} && s'.rows[0].status == Pending && s'.approvals == map[7 := 1]
  {
    var decided := ReachDecided(plans, s, false);
    s' := ReachStored(plans, decided, 5);
    var row := Resumed(ASKED, map[DecisionKey("a") := Bool(false)], 0);
    assert s'.rows == map[0 := row] && row.ctx[DecisionKey("a")] == Bool(false);
  }

  /** A rejected task, and another worker's claim from before the question was put: the question is put again. */
  lemma StaleClaimErasesRejection()
    ensures exists s, ls :: Reachable(Always(ASK_PLAN), s) && Doomed(Always(ASK_PLAN), s, 0) && Valid(Always(ASK_PLAN), s, ls)
                         && 0 in Run(Always(ASK_PLAN), s, ls).rows && Run(Always(ASK_PLAN), s, ls).rows[0] == ASKED.(ctx := map[PendingKey("a") := Num(8)])
  {
    var plans := Always(ASK_PLAN);
    var s := ReachRejected();
    var ask := TakeTurn(2, 8, CALM, 0);
    var s1 := Apply(plans, s, Claim(2));
    FirstAsks(ASK_PLAN, 8);
    var s2 := Apply(plans, s1, ask);
    assert [Claim(2), ask][1..] == [ask] && [ask][1..] == [];
    assert Valid(plans, s2, []) && Valid(plans, s1, [ask]);
    assert Run(plans, s1, [ask]) == s2;
    assert Valid(plans, s, [Claim(2), ask]) && Run(plans, s, [Claim(2), ask]) == s2;
  }

  // ---------------------------------------------------------------- the gate's side conditions

  ghost predicate NeverAsked(trace: seq<Event>, i: nat)
  {
    forall p :: 0 <= p < |trace| && trace[p].ApprovalAsked? ==> trace[p].step != i
  }

  /** Some reachable state has entered step 2 although approval step 1 was never asked for. */
  ghost predicate GateOpen(plans: Plans)
  {
    exists s :: Reachable(plans, s) && |StepsOf(plans, 0)| == 3 && StepsOf(plans, 0)[1].Approval?
             && NeverAsked(s.trace, 1) && Entered(0, 2) in s.trace
  }

  /** One turn of worker 1 on task 0 whose loop goes on. */
  lemma ReachNext(plans: Plans, s: World, row: Row, ctx: Ctx, env: Env, row': Row, ctx': Ctx, newId: int := 8) returns (s': World)
    requires Reachable(plans, s) && WorkerAt(s, 1) == Running(0, row, ctx) && newId !in s.approvals
    requires Iterate(plans(0), row, ctx, newId, env, 0) == Next(row', ctx') && NeverAsked(s.trace, 1)
    ensures Reachable(plans, s') && WorkerAt(s', 1) == Running(0, row', ctx') && s'.approvals == s.approvals
    ensures s'.trace == s.trace + [Entered(0, row.step), Succeeded(0, row.step)]
    ensures NeverAsked(s'.trace, 1) && Entered(0, row.step) in s'.trace
  {
    s' := Apply(plans, s, TakeTurn(1, newId, env, 0));
    Reach(plans, s, TakeTurn(1, newId, env, 0));
    var events := TurnEvents(plans(0), 0, row, ctx, newId, env);
    assert events == [Entered(0, row.step), Succeeded(0, row.step)];
    assert s'.trace == s.trace + events;
    assert s'.trace[|s.trace|] == Entered(0, row.step);
  }

  const SAVE_PLAN := [HttpRequest("h", "", "u", DecisionKey("a")), Approval("a", ""), Webhook("w", "e")]
  const TRUTHFUL := CALM.(http := (k, v, u) => Answer(Bool(true)))

  lemma SaveTurns(row: Row, ctx: Ctx)
    ensures row.attempts == 0 && row.step == 0 ==>
              Iterate(Some(SAVE_PLAN), row, ctx, 8, TRUTHFUL, 0) == Next(row.(step := 1), ctx[DecisionKey("a") := Bool(true)])
    ensures row.attempts == 0 && row.step == 1 && DecisionKey("a") in ctx && ctx[DecisionKey("a")] == Bool(true) ==>
              Iterate(Some(SAVE_PLAN), row, ctx, 8, TRUTHFUL, 0) == Next(row.(step := 2), ctx)
    ensures row.attempts == 0 && row.step == 2 ==>
              Iterate(Some(SAVE_PLAN), row, ctx, 8, TRUTHFUL, 0) == Next(row.(step := 3), ctx)
  {
  }

  /** A response of `true` saved under the reserved decision key walks through the gate. */
  lemma SavedResponseOpensGate()
    ensures GateOpen(Always(SAVE_PLAN))
  {
    var plans := Always(SAVE_PLAN);
    var ctx: Ctx := map[DecisionKey("a") := Bool(true)];
    var row := FRESH.(status := Processing);
    SaveTurns(row, map[]);
    SaveTurns(row.(step := 1), ctx);
    SaveTurns(row.(step := 2), ctx);
    var s0 := ReachStart(plans);
    var s1 := ReachClaim(plans, s0, 1, 0);
    var s2 := ReachNext(plans, s1, row, map[], TRUTHFUL, row.(step := 1), ctx);
    var s3 := ReachNext(plans, s2, row.(step := 1), ctx, TRUTHFUL, row.(step := 2), ctx);
    var s4 := ReachNext(plans, s3, row.(step := 2), ctx, TRUTHFUL, row.(step := 3), ctx);
  }

  const TWIN_PLAN := [Approval("a", ""), Approval("a", ""), Webhook("w", "e")]
  const GRANTED: Ctx := map[PendingKey("a") := Num(7), DecisionKey("a") := Bool(true)]

  lemma TwinTurns(row: Row)
    ensures row.step < 3 && row.attempts == 0 ==> Iterate(Some(TWIN_PLAN), row, GRANTED, 8, CALM, 0) == Next(row.(step := row.step + 1), GRANTED)
  {
    if row.step < 3 && row.attempts == 0 {
      ReservedKeysApart("a", "a");
    }
  }

  /** A decision on approval 7 reaches task 0 and is read back by `Resume`, up to but not including the write. */
  lemma ReachDecided(plans: Plans, s: World, verdict: bool) returns (s': World)
    requires Reachable(plans, s) && s.rows == map[0 := ASKED] && s.approvals == map[7 := 1] && s.calls == map[]
    ensures Reachable(plans, s') && s'.rows == s.rows && s'.workers == s.workers && s'.approvals == s.approvals
    ensures s'.trace == s.trace + [Decided(7, verdict)]
    ensures s'.calls == map[5 := Fetched(0, map[DecisionKey("a") := Bool(verdict)], Some(7), ASKED)]
  {
    var mid := ReachQueued(plans, s, verdict);
    s' := Apply(plans, mid, Fetch(5));
    Reach(plans, mid, Fetch(5));
  }

  lemma ReachQueued(plans: Plans, s: World, verdict: bool) returns (s': World)
    requires Reachable(plans, s) && s.rows == map[0 := ASKED] && s.approvals == map[7 := 1] && s.calls == map[]
    ensures Reachable(plans, s')
    ensures s' == s.(trace := s.trace + [Decided(7, verdict)], calls := map[5 := Queued(0, map[DecisionKey("a") := Bool(verdict)], Some(7))])
  {
    var l := Decide(7, verdict, map[5 := (0, "a")]);
    assert Matches(s, 7, 0, "a");
    s' := Apply(plans, s, l);
    Reach(plans, s, l);
    assert s'.calls == map[5 := Queued(0, map[DecisionKey("a") := Bool(verdict)], Some(7))];
  }

  lemma ReachGrantedFrom(plans: Plans, s: World) returns (s': World)
    requires Reachable(plans, s) && s.rows == map[0 := ASKED] && s.approvals == map[7 := 1] && s.calls == map[]
    requires NeverAsked(s.trace, 1)
    ensures Reachable(plans, s') && s'.rows == map[0 := FRESH.(ctx := GRANTED)]
    ensures s'.workers == s.workers && s'.approvals == s.approvals && NeverAsked(s'.trace, 1)
  {
    var decided := ReachDecided(plans, s, true);
    assert decided.calls[5] == Fetched(0, map[DecisionKey("a") := Bool(true)], Some(7), ASKED);
    GrantedResume();
    StillUnasked(s.trace, Decided(7, true));
    StillUnasked(decided.trace, ResumeSaved(0));
    s' := ReachStored(plans, decided, 5);
  }

  lemma GrantedResume()
    ensures Resumed(ASKED, map[DecisionKey("a") := Bool(true)], 0) == FRESH.(ctx := GRANTED)
  {
    assert ASKED.ctx + map[DecisionKey("a") := Bool(true)] == GRANTED;
  }

  lemma StillUnasked(trace: seq<Event>, e: Event)
    requires NeverAsked(trace, 1) && !e.ApprovalAsked?
    ensures NeverAsked(trace + [e], 1)
  {
    forall p | 0 <= p < |trace + [e]| && (trace + [e])[p].ApprovalAsked? ensures (trace + [e])[p].step != 1 {
      assert p < |trace| && (trace + [e])[p] == trace[p];
    }
  }

  /** ... granted, and the task is pending again. */
  lemma ReachGranted() returns (s': World)
    ensures Reachable(Always(TWIN_PLAN), s') && s'.rows == map[0 := FRESH.(ctx := GRANTED)]
    ensures WorkerAt(s', 1).Idle? && 8 !in s'.approvals && NeverAsked(s'.trace, 1)
  {
    var plans := Always(TWIN_PLAN);
    var s0 := ReachStart(plans);
    var s1 := ReachAsked(plans, s0, TWIN_PLAN);
    s' := ReachGrantedFrom(plans, s1);
  }

  /** Two approval steps with one id: the decision on the first lets the task through the second. */
  lemma TwinIdsOpenGate()
    ensures GateOpen(Always(TWIN_PLAN))
  {
    var plans := Always(TWIN_PLAN);
    var row := FRESH.(ctx := GRANTED, status := Processing);
    TwinTurns(row);
    TwinTurns(row.(step := 1));
    TwinTurns(row.(step := 2));
    var s0 := ReachGranted();
    var s1 := ReachClaim(plans, s0, 1, 0);
    var s2 := ReachNext(plans, s1, row, GRANTED, CALM, row.(step := 1), GRANTED);
    var s3 := ReachNext(plans, s2, row.(step := 1), GRANTED, CALM, row.(step := 2), GRANTED);
    var s4 := ReachNext(plans, s3, row.(step := 2), GRANTED, CALM, row.(step := 3), GRANTED);
  }

  // ---------------------------------------------------------------- a verdict for a question no longer pending

  const PENDING7: Ctx := map[PendingKey("a") := Num(7)]
  const PENDING8: Ctx := map[PendingKey("a") := Num(8)]
  const FORGED: Ctx := map[PendingKey("a") := Num(8), DecisionKey("a") := Bool(true)]

  predicate Undecided(trace: seq<Event>, a: int) { Decided(a, true) !in trace && Decided(a, false) !in trace }

  /** The verdict on approval 7 is under way; a form sent meanwhile makes the task pending again first. */
  lemma ReachOvertaken() returns (s': World)
    ensures Reachable(Always(ASK_PLAN), s') && s'.rows == map[0 := FRESH.(ctx := PENDING7)] && WorkerAt(s', 1).Idle?
    ensures s'.approvals == map[7 := 1] && s'.calls == map[5 := Queued(0, map[DecisionKey("a") := Bool(true)], Some(7))]
    ensures Undecided(s'.trace, 8) && NeverAsked(s'.trace, 1)
  {
    var plans := Always(ASK_PLAN);
    var s0 := ReachStart(plans);
    var s1 := ReachAsked(plans, s0, ASK_PLAN);
    s' := ReachFormFirst(plans, s1);
  }

  lemma ReachFormFirst(plans: Plans, s: World) returns (s': World)
    requires Reachable(plans, s) && s.rows == map[0 := ASKED] && s.approvals == map[7 := 1] && s.calls == map[]
    requires NeverAsked(s.trace, 1) && Undecided(s.trace, 8)
    ensures Reachable(plans, s') && s'.rows == map[0 := FRESH.(ctx := PENDING7)] && s'.workers == s.workers
    ensures s'.approvals == map[7 := 1] && s'.calls == map[5 := Queued(0, map[DecisionKey("a") := Bool(true)], Some(7))]
    ensures Undecided(s'.trace, 8) && NeverAsked(s'.trace, 1)
  {
    var s2 := ReachQueued(plans, s, true);
    StillUndecided(s.trace, Decided(7, true));
    s' := ReachFormPassed(plans, s2);
  }

  lemma ReachFormPassed(plans: Plans, s: World) returns (s': World)
    requires Reachable(plans, s) && s.rows == map[0 := ASKED] && 6 !in s.calls
    requires NeverAsked(s.trace, 1) && Undecided(s.trace, 8)
    ensures Reachable(plans, s') && s'.rows == map[0 := FRESH.(ctx := PENDING7)] && s'.workers == s.workers
    ensures s'.approvals == s.approvals && s'.calls == s.calls
    ensures Undecided(s'.trace, 8) && NeverAsked(s'.trace, 1)
  {
    var s1 := ReachFetched(plans, s, 6, 0);
    s' := ReachStored(plans, s1, 6);
    StillUndecided(s.trace, ResumeSaved(0));
    EmptyResume();
  }

  lemma EmptyResume()
    ensures Resumed(ASKED, map[], 0) == FRESH.(ctx := PENDING7)
  {
    assert PENDING7 + map[] == PENDING7;
  }

  lemma StillUndecided(trace: seq<Event>, e: Event)
    requires NeverAsked(trace, 1) && Undecided(trace, 8) && !e.ApprovalAsked? && (e.Decided? ==> e.approval != 8)
    ensures NeverAsked(trace + [e], 1) && Undecided(trace + [e], 8)
  {
    forall p | 0 <= p < |trace + [e]| && (trace + [e])[p].ApprovalAsked? ensures (trace + [e])[p].step != 1 {
      assert p < |trace| && (trace + [e])[p] == trace[p];
    }
  }

  lemma SecondAsk(plan: seq<Step>)
    ensures AsksFirst(plan) ==>
              var row := FRESH.(status := Processing, ctx := PENDING7);
              && Iterate(Some(plan), row, PENDING7, 8, CALM, 0) == Save(ASKED.(ctx := PENDING8))
              && TurnEvents(Some(plan), 0, row, PENDING7, 8, CALM) == [Entered(0, 0), ApprovalAsked(0, 0, 8)]
  {
    if AsksFirst(plan) {
      ReservedKeysApart("a", "a");
    }
  }

  /** Approval 8 was asked for at step 0 and nobody decided it. */
  ghost predicate EightOpen(trace: seq<Event>)
  {
    NeverAsked(trace, 1) && ApprovalAsked(0, 0, 8) in trace && Undecided(trace, 8)
  }

  /** Only decisions close it, and only an approval of step 1 would have to be asked for there. */
  lemma StaysOpen(trace: seq<Event>, more: seq<Event>)
    requires EightOpen(trace) && forall e :: e in more ==> !e.Decided? && !e.ApprovalAsked?
    ensures EightOpen(trace + more)
  {
    forall p | 0 <= p < |trace + more| && (trace + more)[p].ApprovalAsked? ensures (trace + more)[p].step != 1 {
      assert (trace + more)[p] in more || (trace + more)[p] == trace[p];
    }
  }

  lemma Opens(trace: seq<Event>, more: seq<Event>)
    requires NeverAsked(trace, 1) && Undecided(trace, 8) && more == [Entered(0, 0), ApprovalAsked(0, 0, 8)]
    ensures EightOpen(trace + more)
  {
    var all := trace + more;
    assert all[|trace| + 1] == ApprovalAsked(0, 0, 8);
    forall p | 0 <= p < |all| && all[p].ApprovalAsked? ensures all[p].step != 1 {
      assert p >= |trace| ==> all[p] == more[p - |trace|];
    }
  }

  /** The task asks again, and approval 8 is pending. */
  lemma ReachAskedAnew(plans: Plans, s: World) returns (s': World)
    requires plans(0) == Some(ASK_PLAN) && Reachable(plans, s) && s.rows == map[0 := FRESH.(ctx := PENDING7)]
    requires WorkerAt(s, 1).Idle? && s.approvals == map[7 := 1] && NeverAsked(s.trace, 1) && Undecided(s.trace, 8)
    ensures Reachable(plans, s') && s'.rows == map[0 := ASKED.(ctx := PENDING8)] && WorkerAt(s', 1).Idle?
    ensures s'.approvals == map[7 := 1, 8 := 1] && s'.calls == s.calls && EightOpen(s'.trace)
  {
    var s1 := ReachClaim(plans, s, 1, 0);
    forall p | 0 <= p < |s1.trace| && s1.trace[p].ApprovalAsked? ensures s1.trace[p].step != 1 {
      assert p < |s.trace| && s1.trace[p] == s.trace[p];
    }
    s' := ReachQuestion(plans, s1);
  }

  lemma ReachQuestion(plans: Plans, s: World) returns (s': World)
    requires plans(0) == Some(ASK_PLAN) && Reachable(plans, s) && s.rows.Keys == {0}
    requires WorkerAt(s, 1) == Running(0, FRESH.(status := Processing, ctx := PENDING7), PENDING7)
    requires s.approvals == map[7 := 1] && NeverAsked(s.trace, 1) && Undecided(s.trace, 8)
    ensures Reachable(plans, s') && s'.rows == map[0 := ASKED.(ctx := PENDING8)] && WorkerAt(s', 1).Idle?
    ensures s'.approvals == map[7 := 1, 8 := 1] && s'.calls == s.calls && EightOpen(s'.trace)
  {
    SecondAsk(ASK_PLAN);
    Opens(s.trace, [Entered(0, 0), ApprovalAsked(0, 0, 8)]);
    s' := Apply(plans, s, TakeTurn(1, 8, CALM, 0));
    Reach(plans, s, TakeTurn(1, 8, CALM, 0));
  }

  lemma ReachRead(plans: Plans, s: World, c: int) returns (s': World)
    requires Reachable(plans, s) && c in s.calls && s.calls[c].Queued? && s.calls[c].task in s.rows
    requires s.rows[s.calls[c].task].status == WaitingUser
    ensures Reachable(plans, s')
    ensures var call := s.calls[c];
            s' == s.(calls := s.calls[c := Fetched(call.task, call.input, call.source, s.rows[call.task])])
  {
    s' := Apply(plans, s, Fetch(c));
    Reach(plans, s, Fetch(c));
  }

  /** The verdict on 7 is read back and saved under the question 8. */
  lemma ReachForged(plans: Plans, s: World) returns (s': World)
    requires Reachable(plans, s) && s.rows == map[0 := ASKED.(ctx := PENDING8)] && EightOpen(s.trace)
    requires s.calls == map[5 := Queued(0, map[DecisionKey("a") := Bool(true)], Some(7))]
    ensures Reachable(plans, s') && s'.rows == map[0 := FRESH.(ctx := FORGED)] && s'.workers == s.workers
    ensures s'.approvals == s.approvals && EightOpen(s'.trace)
  {
    var mid := ReachRead(plans, s, 5);
    assert mid.calls[5] == Fetched(0, map[DecisionKey("a") := Bool(true)], Some(7), ASKED.(ctx := PENDING8));
    ForgedResume();
    s' := ReachStored(plans, mid, 5);
    StaysOpen(s.trace, [ResumeSaved(0)]);
  }

  lemma ForgedResume()
    ensures Resumed(ASKED.(ctx := PENDING8), map[DecisionKey("a") := Bool(true)], 0) == FRESH.(ctx := FORGED)
  {
    assert PENDING8 + map[DecisionKey("a") := Bool(true)] == FORGED;
  }

  lemma ForgedTurns(row: Row)
    ensures row.step < 2 && row.attempts == 0 ==> Iterate(Some(ASK_PLAN), row, FORGED, 9, CALM, 0) == Next(row.(step := row.step + 1), FORGED)
  {
    if row.step < 2 && row.attempts == 0 {
      ReservedKeysApart("a", "a");
    }
  }

  /** From there the task passes its approval step and enters the next one. */
  lemma ReachPassed(plans: Plans, s: World) returns (s': World)
    requires plans(0) == Some(ASK_PLAN) && Reachable(plans, s) && s.rows == map[0 := FRESH.(ctx := FORGED)]
    requires WorkerAt(s, 1).Idle? && 9 !in s.approvals && EightOpen(s.trace)
    ensures Reachable(plans, s') && WorkerAt(s', 1).Running? && WorkerAt(s', 1).ctx == FORGED
    ensures Entered(0, 1) in s'.trace && EightOpen(s'.trace)
  {
    var row := FRESH.(ctx := FORGED, status := Processing);
    ForgedTurns(row);
    ForgedTurns(row.(step := 1));
    var s1 := ReachClaim(plans, s, 1, 0);
    StaysOpen(s.trace, [Claimed(0)]);
    var s2 := ReachNext(plans, s1, row, FORGED, CALM, row.(step := 1), FORGED, 9);
    StaysOpen(s1.trace, [Entered(0, 0), Succeeded(0, 0)]);
    s' := ReachNext(plans, s2, row.(step := 1), FORGED, CALM, row.(step := 2), FORGED, 9);
    StaysOpen(s2.trace, [Entered(0, 1), Succeeded(0, 1)]);
  }

  /**
   `DecideApproval` lists the waiting tasks and then resumes them, and `Resume` never compares the pending id. The verdict on
   approval 7 lets the task through although it has asked anew meanwhile: approval 8 is pending, and nobody decided it. Every
   claim and every resume on the way acts on the row as it is.
   */
  lemma OvertakenVerdictOpensGate()
    ensures exists s :: Reachable(Always(ASK_PLAN), s) && Entered(0, 1) in s.trace && EightOpen(s.trace)
                     && WorkerAt(s, 1).Running? && WorkerAt(s, 1).ctx == FORGED
  {
    var plans := Always(ASK_PLAN);
    var s1 := ReachOvertaken();
    var s2 := ReachAskedAnew(plans, s1);
    var s3 := ReachForged(plans, s2);
    var s4 := ReachPassed(plans, s3);
  }
}
