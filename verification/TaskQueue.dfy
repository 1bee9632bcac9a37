/**
 The workflow engine and its task table as a state machine of interleaved actors: a pool of workers
 (claim, one loop iteration of `execute` at a time, crash), form submissions, approval decisions, and
 the two halves of `Resume` (read the row, write it back).
 */
module TaskQueue {
  import opened Common
  import opened Steps

  const MAX_STEP_ATTEMPTS := 3
  const JUMP := 0x4000_0000 // where a failed condition sends StepIndex

  datatype Status = Pending | Processing | WaitingUser | Done | Failed

  datatype Row = Row(
    ticket: Option<int>, status: Status, step: nat, ctx: Ctx, attempts: nat, error: string, due: int)

  /** One loop iteration either goes on with the next step or writes the row and ends the claim. */
  datatype Turn = Next(row: Row, ctx: Ctx) | Save(row: Row)

  function Backoff(attempts: nat): nat
  {
    if attempts == 0 then 1 else 2 * Backoff(attempts - 1)
  }

  /** What `execute` does with the result of one step; the error path keeps the row's context as it was. */
  function Settle(row: Row, r: StepResult, now: int): Turn
  {
    match r.outcome
    case Error(msg) =>
      var tried := row.(attempts := row.attempts + 1, error := msg);
      if tried.attempts >= MAX_STEP_ATTEMPTS then Save(tried.(status := Failed))
      else Save(tried.(status := Pending, due := now + Backoff(tried.attempts)))
    case Pause => Save(row.(ctx := r.ctx, status := WaitingUser))
    case Advance => Next(row.(step := row.step + 1, attempts := 0), r.ctx)
    case Jump => Next(row.(step := JUMP + 1, attempts := 0), r.ctx)
  }

  /** One iteration of the loop in `execute`; `plan` is None when the workflow is gone or its config is broken. */
  function Iterate(plan: Option<seq<Step>>, row: Row, ctx: Ctx, newId: int, env: Env, now: int): Turn
  {
    if plan.None? then Save(row.(status := Failed, error := "workflow"))
    else if row.step >= |plan.value| then Save(row.(ctx := ctx, status := Done))
    else Settle(row, RunStep(plan.value[row.step], row.step, row.ticket, ctx, newId, env), now)
  }

  function Resumed(row: Row, input: Ctx, now: int): Row
  {
    row.(ctx := row.ctx + input, status := Pending, due := now)
  }

  // ---------------------------------------------------------------- the actors

  datatype Worker = Idle | Selected(id: int, snap: Row) | Running(id: int, row: Row, ctx: Ctx)

  /** A `Resume` under way; `source` is the approval whose verdict it brings, None for a form. */
  datatype Call =
    | Queued(task: int, input: Ctx, source: Option<int>)
    | Fetched(task: int, input: Ctx, source: Option<int>, snap: Row)

  datatype Event =
    | Claimed(task: int)
    | Entered(task: int, step: nat)
    | Succeeded(task: int, step: nat)
    | ApprovalAsked(task: int, step: nat, approval: int)
    | Decided(approval: int, verdict: bool)
    | ResumeSaved(task: int)

  datatype World = World(
    rows: map<int, Row>,
    approvals: map<int, int>,   // approval id -> its ticket
    workers: map<int, Worker>,
    calls: map<int, Call>,
    trace: seq<Event>)

  const START := World(map[], map[], map[], map[], [])

  /** The step list each task id runs; workflows are only ever created and read, so it never changes. */
  type Plans = int -> Option<seq<Step>>

  function StepsOf(plans: Plans, t: int): seq<Step> { plans(t).GetOr([]) }

  function WorkerAt(s: World, w: int): Worker { if w in s.workers then s.workers[w] else Idle }

  datatype Label =
    | Enqueue(id: int, row: Row)
    | Select(w: int, now: int)
    | Claim(w: int)
    | TakeTurn(w: int, newId: int, env: Env, now: int)
    | Crash(w: int)
    | Submit(c: int, task: int, input: Ctx)
    | Decide(approval: int, verdict: bool, calls: map<int, (int, string)>)
    | Fetch(c: int)
    | Store(c: int, now: int)

  predicate IsDue(row: Row, now: int) { row.status == Pending && row.due <= now }

  ghost predicate IsFirstDue(s: World, id: int, now: int)
  {
    id in s.rows && IsDue(s.rows[id], now) && forall j :: j in s.rows && IsDue(s.rows[j], now) ==> id <= j
  }

  /** A context key of a waiting task through which a decision on `approval` reaches that task. */
  predicate Matches(s: World, approval: int, task: int, stepId: string)
  {
    approval in s.approvals && task in s.rows && s.rows[task].status == WaitingUser && s.rows[task].ticket == Some(s.approvals[approval])
    && PendingKey(stepId) in s.rows[task].ctx && s.rows[task].ctx[PendingKey(stepId)] == Num(approval)
  }

  /** Reserved approval keys of `steps` carry no value that could stand for an approval or a verdict. */
  ghost predicate NoVerdict(steps: seq<Step>, ctx: Ctx)
  {
    forall i :: 0 <= i < |steps| && steps[i].Approval? ==>
      (DecisionKey(steps[i].id) in ctx ==> !ctx[DecisionKey(steps[i].id)].Bool?)
      && (PendingKey(steps[i].id) in ctx ==> !ctx[PendingKey(steps[i].id)].Num?)
  }

  ghost predicate Enabled(plans: Plans, s: World, l: Label)
  {
    match l
    case Enqueue(id, row) =>
      id !in s.rows && row.status == Pending && row.step == 0 && row.attempts == 0 && NoVerdict(StepsOf(plans, id), row.ctx)
    case Select(w, now) => WorkerAt(s, w).Idle? && exists id :: IsFirstDue(s, id, now)
    case Claim(w) => WorkerAt(s, w).Selected?
    case TakeTurn(w, newId, env, now) => WorkerAt(s, w).Running? && newId !in s.approvals
    case Crash(w) => true
    case Submit(c, task, input) =>
      c !in s.calls && forall k :: k in input ==> input[k].Str? || input[k].Tree?
    case Decide(approval, verdict, calls) =>
      approval in s.approvals
      && forall c :: c in calls ==> c !in s.calls && Matches(s, approval, calls[c].0, calls[c].1)
    case Fetch(c) => c in s.calls && s.calls[c].Queued?
    case Store(c, now) => c in s.calls && s.calls[c].Fetched?
  }

  ghost function Apply(plans: Plans, s: World, l: Label): World
    requires Enabled(plans, s, l)
  {
    match l
    case Enqueue(id, row) => s.(rows := s.rows[id := row])
    case Select(w, now) =>
      var id :| IsFirstDue(s, id, now);
      s.(workers := s.workers[w := Selected(id, s.rows[id])])
    case Claim(w) => ApplyClaim(s, w)
    case TakeTurn(w, newId, env, now) => ApplyTurn(plans, s, w, newId, env, now)
    case Crash(w) => s.(workers := s.workers[w := Idle])
    case Submit(c, task, input) => s.(calls := s.calls[c := Queued(task, input, None)])
    case Decide(approval, verdict, calls) =>
      s.(calls := s.calls + (map c | c in calls ::
                               Queued(calls[c].0, map[DecisionKey(calls[c].1) := Bool(verdict)], Some(approval))),
         trace := s.trace + [Decided(approval, verdict)])
    case Fetch(c) =>
      var call := s.calls[c];
      if call.task in s.rows && s.rows[call.task].status == WaitingUser
      then s.(calls := s.calls[c := Fetched(call.task, call.input, call.source, s.rows[call.task])])
      else s.(calls := s.calls - {c})
    case Store(c, now) =>
      var call := s.calls[c];
      s.(calls := s.calls - {c},
         rows := s.rows[call.task := Resumed(call.snap, call.input, now)],
         trace := s.trace + [ResumeSaved(call.task)])
  }

  /** The guarded UPDATE: it re-checks the status only, and the worker goes on with its SELECT snapshot. */
  function ApplyClaim(s: World, w: int): World
    requires WorkerAt(s, w).Selected?
  {
    var Selected(id, snap) := WorkerAt(s, w);
    if id in s.rows && s.rows[id].status == Pending then
      s.(rows := s.rows[id := s.rows[id].(status := Processing)],
         workers := s.workers[w := Running(id, snap.(status := Processing), snap.ctx)],
         trace := s.trace + [Claimed(id)])
    else s.(workers := s.workers[w := Idle])
  }

  /** What one iteration adds to the trace. */
  function TurnEvents(plan: Option<seq<Step>>, t: int, row: Row, ctx: Ctx, newId: int, env: Env): seq<Event>
  {
    if plan.None? || row.step >= |plan.value| then []
    else
      var r := RunStep(plan.value[row.step], row.step, row.ticket, ctx, newId, env);
      [Entered(t, row.step)]
      + (if r.outcome.Advance? || r.outcome.Jump? then [Succeeded(t, row.step)] else [])
      + (if plan.value[row.step].Approval? && r.outcome.Pause? then [ApprovalAsked(t, row.step, newId)] else [])
  }

  function ApplyTurn(plans: Plans, s: World, w: int, newId: int, env: Env, now: int): World
    requires WorkerAt(s, w).Running?
  {
    var Running(id, row, ctx) := WorkerAt(s, w);
    var events := TurnEvents(plans(id), id, row, ctx, newId, env);
    var turn := Iterate(plans(id), row, ctx, newId, env, now);
    var s' := s.(trace := s.trace + events,
                 approvals := if |events| > 0 && events[|events| - 1].ApprovalAsked? && row.ticket.Some?
                              then s.approvals[newId := row.ticket.value] else s.approvals);
    match turn
    case Next(row', ctx') => s'.(workers := s.workers[w := Running(id, row', ctx')])
    case Save(row') => s'.(rows := s.rows[id := row'], workers := s.workers[w := Idle])
  }

  /** `ls` can be executed from `s`, every label satisfying `ok` in the state it meets. */
  ghost predicate Valid(plans: Plans, s: World, ls: seq<Label>)
    decreases ls
  {
    ls == [] || (Enabled(plans, s, ls[0]) && Valid(plans, Apply(plans, s, ls[0]), ls[1..]))
  }

  ghost function Run(plans: Plans, s: World, ls: seq<Label>): World
    requires Valid(plans, s, ls)
    decreases ls
  {
    if ls == [] then s else Run(plans, Apply(plans, s, ls[0]), ls[1..])
  }

  lemma {:induction false} RunSnoc(plans: Plans, s: World, ls: seq<Label>, l: Label)
    requires Valid(plans, s, ls) && Enabled(plans, Run(plans, s, ls), l)
    ensures Valid(plans, s, ls + [l]) && Run(plans, s, ls + [l]) == Apply(plans, Run(plans, s, ls), l)
    decreases ls
  {
    if ls == [] {
      assert Valid(plans, Apply(plans, s, l), []);
      assert ([l])[1..] == [];
      assert ls + [l] == [l];
    } else {
      RunSnoc(plans, Apply(plans, s, ls[0]), ls[1..], l);
      assert (ls + [l])[1..] == ls[1..] + [l];
    }
  }

  ghost predicate Reachable(plans: Plans, s: World)
  {
    exists ls :: Valid(plans, START, ls) && Run(plans, START, ls) == s
  }

  lemma Reach(plans: Plans, s: World, l: Label)
    requires Reachable(plans, s) && Enabled(plans, s, l)
    ensures Reachable(plans, Apply(plans, s, l))
  {
    var ls :| Valid(plans, START, ls) && Run(plans, START, ls) == s;
    RunSnoc(plans, START, ls, l);
  }
}
