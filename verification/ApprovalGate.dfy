/**
 The approval gate: in every run of the task queue, with stale claims, stale resumes and crashes
 allowed, no step behind an approval step is ever entered unless an approval that this very task asked
 for at that very step was afterwards decided with true.
 */
module ApprovalGate {
  import opened Common
  import opened Steps
  import opened TaskQueue

  /** Approval steps have their own ids, and no http_request saves its response under an approval's reserved keys. */
  ghost predicate StepGuarded(steps: seq<Step>, k: nat)
  {
    k < |steps| && forall j :: 0 <= j < |steps| && steps[j].Approval? ==>
      && (steps[k].Approval? && j != k ==> steps[k].id != steps[j].id)
      && (steps[k].HttpRequest? ==> steps[k].saveTo != DecisionKey(steps[j].id) && steps[k].saveTo != PendingKey(steps[j].id))
  }

  /** The step lists the gate needs: guarded, and ending before the place a failed condition jumps to. */
  ghost predicate WellFormed(steps: seq<Step>)
  {
    |steps| <= JUMP && forall k :: 0 <= k < |steps| ==> StepGuarded(steps, k)
  }

  ghost predicate WellFormedPlans(plans: Plans)
  {
    forall t :: WellFormed(StepsOf(plans, t))
  }

  /** Task `t` asked for an approval at step `i`, and that approval was later decided with true. */
  ghost predicate Approved(trace: seq<Event>, t: int, i: nat)
  {
    exists q, r :: 0 <= q < r < |trace| && trace[q].ApprovalAsked? && trace[q].task == t && trace[q].step == i
                && trace[r] == Decided(trace[q].approval, true)
  }

  ghost predicate IsAsked(trace: seq<Event>, t: int, i: nat, a: int)
  {
    exists q :: 0 <= q < |trace| && trace[q] == ApprovalAsked(t, i, a)
  }

  lemma Grow(trace: seq<Event>, more: seq<Event>)
    ensures forall t, i :: Approved(trace, t, i) ==> Approved(trace + more, t, i)
    ensures forall t, i, a :: IsAsked(trace, t, i, a) ==> IsAsked(trace + more, t, i, a)
  {
    var all := trace + more;
    forall t, i | Approved(trace, t, i) ensures Approved(all, t, i) {
      var q, r :| 0 <= q < r < |trace| && trace[q].ApprovalAsked? && trace[q].task == t && trace[q].step == i
               && trace[r] == Decided(trace[q].approval, true);
      assert all[q] == trace[q] && all[r] == trace[r];
    }
    forall t, i, a | IsAsked(trace, t, i, a) ensures IsAsked(all, t, i, a) {
      var q :| 0 <= q < |trace| && trace[q] == ApprovalAsked(t, i, a);
      assert all[q] == trace[q];
    }
  }

  // ---------------------------------------------------------------- what every copy of a task satisfies

  /** A pending approval id in a context was asked for by this task here; a true verdict is backed by a decision. */
  ghost predicate CtxOk(trace: seq<Event>, t: int, steps: seq<Step>, ctx: Ctx)
  {
    forall i :: 0 <= i < |steps| && steps[i].Approval? ==>
      (PendingKey(steps[i].id) in ctx && ctx[PendingKey(steps[i].id)].Num? ==>
         IsAsked(trace, t, i, ctx[PendingKey(steps[i].id)].n))
      && (DecisionKey(steps[i].id) in ctx && ctx[DecisionKey(steps[i].id)] == Bool(true) ==> Approved(trace, t, i))
  }

  /** All approval steps before `k` are approved, unless `k` lies behind a failed condition's jump. */
  ghost predicate PassedOk(trace: seq<Event>, t: int, steps: seq<Step>, k: nat)
  {
    k <= |steps| ==> forall i :: 0 <= i < k && steps[i].Approval? ==> Approved(trace, t, i)
  }

  ghost predicate RowOk(trace: seq<Event>, plans: Plans, t: int, row: Row)
  {
    CtxOk(trace, t, StepsOf(plans, t), row.ctx) && PassedOk(trace, t, StepsOf(plans, t), row.step)
  }

  ghost predicate WorkerOk(trace: seq<Event>, plans: Plans, w: Worker)
  {
    match w
    case Idle => true
    case Selected(id, snap) => RowOk(trace, plans, id, snap)
    case Running(id, row, ctx) => RowOk(trace, plans, id, row) && CtxOk(trace, id, StepsOf(plans, id), ctx)
  }

  ghost predicate CallOk(trace: seq<Event>, plans: Plans, c: Call)
  {
    CtxOk(trace, c.task, StepsOf(plans, c.task), c.input)
    && (c.Fetched? ==> RowOk(trace, plans, c.task, c.snap))
  }

  /** The gate itself, for the steps entered so far. */
  ghost predicate TraceOk(plans: Plans, trace: seq<Event>)
  {
    trace == [] ||
    var past, e := trace[..|trace| - 1], trace[|trace| - 1];
    TraceOk(plans, past) &&
    (e.Entered? ==> e.step < |StepsOf(plans, e.task)| && PassedOk(past, e.task, StepsOf(plans, e.task), e.step))
  }

  ghost predicate GateInv(plans: Plans, s: World)
  {
    (forall t :: t in s.rows ==> RowOk(s.trace, plans, t, s.rows[t]))
    && (forall w :: w in s.workers ==> WorkerOk(s.trace, plans, s.workers[w]))
    && (forall c :: c in s.calls ==> CallOk(s.trace, plans, s.calls[c]))
    && TraceOk(plans, s.trace)
  }

  lemma GrowInv(plans: Plans, s: World, more: seq<Event>)
    requires GateInv(plans, s)
    ensures forall t :: t in s.rows ==> RowOk(s.trace + more, plans, t, s.rows[t])
    ensures forall w :: w in s.workers ==> WorkerOk(s.trace + more, plans, s.workers[w])
    ensures forall c :: c in s.calls ==> CallOk(s.trace + more, plans, s.calls[c])
  {
    Grow(s.trace, more);
  }

  /** An event that is not Entered never disturbs TraceOk. */
  lemma TraceSnoc(plans: Plans, trace: seq<Event>, e: Event)
    requires TraceOk(plans, trace)
    requires e.Entered? ==> e.step < |StepsOf(plans, e.task)| && PassedOk(trace, e.task, StepsOf(plans, e.task), e.step)
    ensures TraceOk(plans, trace + [e])
  {
    assert (trace + [e])[..|trace|] == trace;
  }

  lemma TurnTrace(plans: Plans, trace: seq<Event>, events: seq<Event>)
    requires TraceOk(plans, trace)
    requires forall i :: 0 < i < |events| ==> !events[i].Entered?
    requires |events| > 0 && events[0].Entered? ==>
      events[0].step < |StepsOf(plans, events[0].task)|
      && PassedOk(trace, events[0].task, StepsOf(plans, events[0].task), events[0].step)
    ensures TraceOk(plans, trace + events)
    decreases |events|
  {
    if events == [] {
      assert trace + events == trace;
    } else {
      var n := |events| - 1;
      TurnTrace(plans, trace, events[..n]);
      assert n == 0 ==> trace + events[..n] == trace;
      TraceSnoc(plans, trace + events[..n], events[n]);
      assert trace + events == trace + events[..n] + [events[n]];
    }
  }

  // ---------------------------------------------------------------- one step of the loop

  /** Running step k in a good context gets past an approval only if it was approved. */
  lemma StepKeepsPassed(plans: Plans, trace: seq<Event>, t: int, row: Row, ctx: Ctx, newId: int, env: Env)
    requires plans(t).Some? && row.step < |StepsOf(plans, t)|
    requires CtxOk(trace, t, StepsOf(plans, t), ctx)
    requires PassedOk(trace, t, StepsOf(plans, t), row.step)
    ensures var steps := StepsOf(plans, t);
            RunStep(steps[row.step], row.step, row.ticket, ctx, newId, env).outcome.Advance? ==>
              PassedOk(trace + TurnEvents(plans(t), t, row, ctx, newId, env), t, steps, row.step + 1)
  {
    Grow(trace, TurnEvents(plans(t), t, row, ctx, newId, env));
  }

  /** Running a guarded step in a good context leaves a good context. */
  lemma StepKeepsCtx(plans: Plans, trace: seq<Event>, t: int, row: Row, ctx: Ctx, newId: int, env: Env)
    requires plans(t).Some? && row.step < |StepsOf(plans, t)| && StepGuarded(StepsOf(plans, t), row.step)
    requires CtxOk(trace, t, StepsOf(plans, t), ctx)
    ensures var steps := StepsOf(plans, t);
            var r := RunStep(steps[row.step], row.step, row.ticket, ctx, newId, env);
            CtxOk(trace + TurnEvents(plans(t), t, row, ctx, newId, env), t, steps, r.ctx)
  {
    var steps := StepsOf(plans, t);
    var k := row.step;
    var r := RunStep(steps[k], k, row.ticket, ctx, newId, env);
    var after := trace + TurnEvents(plans(t), t, row, ctx, newId, env);
    Grow(trace, TurnEvents(plans(t), t, row, ctx, newId, env));
    forall i | 0 <= i < |steps| && steps[i].Approval?
      ensures PendingKey(steps[i].id) in r.ctx && r.ctx[PendingKey(steps[i].id)].Num? ==>
                IsAsked(after, t, i, r.ctx[PendingKey(steps[i].id)].n)
      ensures DecisionKey(steps[i].id) in r.ctx && r.ctx[DecisionKey(steps[i].id)] == Bool(true) ==> Approved(after, t, i)
    {
      StepKeepsKeys(plans, trace, t, row, ctx, newId, env, i);
    }
  }

  lemma StepKeepsKeys(plans: Plans, trace: seq<Event>, t: int, row: Row, ctx: Ctx, newId: int, env: Env, i: nat)
    requires plans(t).Some? && row.step < |StepsOf(plans, t)| && StepGuarded(StepsOf(plans, t), row.step)
    requires CtxOk(trace, t, StepsOf(plans, t), ctx)
    requires i < |StepsOf(plans, t)| && StepsOf(plans, t)[i].Approval?
    ensures var steps := StepsOf(plans, t);
            var r := RunStep(steps[row.step], row.step, row.ticket, ctx, newId, env);
            var after := trace + TurnEvents(plans(t), t, row, ctx, newId, env);
            (PendingKey(steps[i].id) in r.ctx && r.ctx[PendingKey(steps[i].id)].Num? ==>
               IsAsked(after, t, i, r.ctx[PendingKey(steps[i].id)].n))
            && (DecisionKey(steps[i].id) in r.ctx && r.ctx[DecisionKey(steps[i].id)] == Bool(true) ==>
                  Approved(after, t, i))
  {
    var steps := StepsOf(plans, t);
    var k := row.step;
    var r := RunStep(steps[k], k, row.ticket, ctx, newId, env);
    var after := trace + TurnEvents(plans(t), t, row, ctx, newId, env);
    var asked, decided := PendingKey(steps[i].id), DecisionKey(steps[i].id);
    Grow(trace, TurnEvents(plans(t), t, row, ctx, newId, env));
    ReservedKeysApart(steps[i].id, steps[k].id);
    ReservedKeysApart(steps[k].id, steps[i].id);
    if decided in r.ctx && (decided in ctx ==> ctx[decided] != r.ctx[decided]) {
      StepWrites(steps[k], k, row.ticket, ctx, newId, env, decided);
    }
    if asked in r.ctx && (asked in ctx ==> ctx[asked] != r.ctx[asked]) {
      StepWrites(steps[k], k, row.ticket, ctx, newId, env, asked);
      if steps[k].Approval? {
        assert i == k;
        assert after[|trace| + 1] == ApprovalAsked(t, k, newId);
      }
    }
  }

  lemma IterateKeepsCopies(plans: Plans, trace: seq<Event>, t: int, row: Row, ctx: Ctx, newId: int, env: Env, now: int)
    requires WellFormed(StepsOf(plans, t))
    requires RowOk(trace, plans, t, row) && CtxOk(trace, t, StepsOf(plans, t), ctx)
    ensures var after := trace + TurnEvents(plans(t), t, row, ctx, newId, env);
            match Iterate(plans(t), row, ctx, newId, env, now)
            case Next(row', ctx') => RowOk(after, plans, t, row') && CtxOk(after, t, StepsOf(plans, t), ctx')
            case Save(row') => RowOk(after, plans, t, row')
  {
    Grow(trace, TurnEvents(plans(t), t, row, ctx, newId, env));
    if plans(t).Some? && row.step < |StepsOf(plans, t)| {
      StepKeepsCtx(plans, trace, t, row, ctx, newId, env);
      StepKeepsPassed(plans, trace, t, row, ctx, newId, env);
    }
  }

  /** One run of a step, with whatever environment, leaves a good context good. */
  ghost predicate KeepsCtx(steps: seq<Step>, trace: seq<Event>, t: int, row: Row, ctx: Ctx, newId: int, env: Env)
  {
    row.step < |steps| && CtxOk(trace, t, steps, ctx) ==>
      CtxOk(trace + TurnEvents(Some(steps), t, row, ctx, newId, env), t, steps,
            RunStep(steps[row.step], row.step, row.ticket, ctx, newId, env).ctx)
  }

  ghost predicate AlwaysKeepsCtx(steps: seq<Step>, k: nat)
  {
    forall trace, t, row: Row, ctx, newId, env :: row.step == k ==> KeepsCtx(steps, trace, t, row, ctx, newId, env)
  }

  /**
   MAIN RESULT. The exact condition, step by step: a step leaves every good context good, whatever is answered, if and only
   if it is guarded. A reserved save forges an approval or a verdict; a shared id passes one approval off as another.
   */
  lemma ContextsStayGoodIff(steps: seq<Step>, k: nat)
    requires k < |steps|
    ensures AlwaysKeepsCtx(steps, k) <==> StepGuarded(steps, k)
  {
    if StepGuarded(steps, k) {
      forall trace, t, row: Row, ctx, newId, env | row.step == k ensures KeepsCtx(steps, trace, t, row, ctx, newId, env) {
        if CtxOk(trace, t, steps, ctx) {
          StepKeepsCtx((u: int) => Some(steps), trace, t, row, ctx, newId, env);
        }
      }
    } else if steps[k].Approval? {
      var j :| 0 <= j < |steps| && steps[j].Approval? && j != k && steps[k].id == steps[j].id;
      SharedIdForges(steps, k, j);
    } else {
      var j :| 0 <= j < |steps| && steps[j].Approval?
            && (steps[k].saveTo == DecisionKey(steps[j].id) || steps[k].saveTo == PendingKey(steps[j].id));
      SaveForges(steps, k, j);
    }
  }

  function Answering(v: Value): Env
  {
    Env((t, c) => Some(t), (k, m, u) => Answer(v), k => true, n => "")
  }

  function AtStep(k: nat): Row { Row(Some(1), Processing, k, map[], 0, "", 0) }

  lemma SaveForges(steps: seq<Step>, k: nat, j: nat)
    requires k < |steps| && j < |steps| && steps[k].HttpRequest? && steps[j].Approval?
    requires steps[k].saveTo == DecisionKey(steps[j].id) || steps[k].saveTo == PendingKey(steps[j].id)
    ensures !AlwaysKeepsCtx(steps, k)
  {
    var decides := steps[k].saveTo == DecisionKey(steps[j].id);
    var env := Answering(if decides then Bool(true) else Num(7));
    var events := TurnEvents(Some(steps), 0, AtStep(k), map[], 7, env);
    var ctx := RunStep(steps[k], k, Some(1), map[], 7, env).ctx;
    assert events == [Entered(0, k), Succeeded(0, k)] && [] + events == events;
    assert ctx == map[steps[k].saveTo := if decides then Bool(true) else Num(7)];
    assert !Approved(events, 0, j) && !IsAsked(events, 0, j, 7);
    assert !KeepsCtx(steps, [], 0, AtStep(k), map[], 7, env);
  }

  lemma SharedIdForges(steps: seq<Step>, k: nat, j: nat)
    requires k < |steps| && j < |steps| && j != k && steps[k].Approval? && steps[j].Approval? && steps[k].id == steps[j].id
    ensures !AlwaysKeepsCtx(steps, k)
  {
    var env := Answering(Bool(true));
    var events := TurnEvents(Some(steps), 0, AtStep(k), map[], 7, env);
    assert events == [Entered(0, k), ApprovalAsked(0, k, 7)] && [] + events == events;
    assert RunStep(steps[k], k, Some(1), map[], 7, env).ctx == map[PendingKey(steps[j].id) := Num(7)];
    assert !IsAsked(events, 0, j, 7);
    assert !KeepsCtx(steps, [], 0, AtStep(k), map[], 7, env);
  }

  lemma TurnKeepsGate(plans: Plans, s: World, w: int, newId: int, env: Env, now: int)
    requires WellFormedPlans(plans) && GateInv(plans, s)
    requires WorkerAt(s, w).Running?
    ensures GateInv(plans, ApplyTurn(plans, s, w, newId, env, now))
  {
    var Running(id, row, ctx) := WorkerAt(s, w);
    assert WorkerOk(s.trace, plans, s.workers[w]);
    assert WellFormed(StepsOf(plans, id));
    var events := TurnEvents(plans(id), id, row, ctx, newId, env);
    GrowInv(plans, s, events);
    IterateKeepsCopies(plans, s.trace, id, row, ctx, newId, env, now);
    TurnTrace(plans, s.trace, events);
  }

  lemma DecideKeepsGate(plans: Plans, s: World, l: Label)
    requires GateInv(plans, s) && l.Decide? && Enabled(plans, s, l)
    ensures GateInv(plans, Apply(plans, s, l))
  {
    var s' := Apply(plans, s, l);
    GrowInv(plans, s, [Decided(l.approval, l.verdict)]);
    TraceSnoc(plans, s.trace, Decided(l.approval, l.verdict));
    forall c | c in s'.calls ensures CallOk(s'.trace, plans, s'.calls[c]) {
      if c in l.calls {
        var t, stepId := l.calls[c].0, l.calls[c].1;
        assert Matches(s, l.approval, t, stepId);
        assert RowOk(s.trace, plans, t, s.rows[t]);
        DecisionBacked(plans, s, l.approval, l.verdict, t, stepId);
      }
    }
  }

  /** The decision a task receives is for an approval the task itself asked for at that step. */
  lemma DecisionBacked(plans: Plans, s: World, approval: int, verdict: bool, t: int, stepId: string)
    requires approval in s.approvals && Matches(s, approval, t, stepId)
    requires CtxOk(s.trace, t, StepsOf(plans, t), s.rows[t].ctx)
    ensures CtxOk(s.trace + [Decided(approval, verdict)], t, StepsOf(plans, t), map[DecisionKey(stepId) := Bool(verdict)])
  {
    var steps := StepsOf(plans, t);
    var after := s.trace + [Decided(approval, verdict)];
    forall i | 0 <= i < |steps| && steps[i].Approval? && verdict && DecisionKey(steps[i].id) == DecisionKey(stepId)
      ensures Approved(after, t, i)
    {
      ReservedKeysApart(steps[i].id, stepId);
      assert IsAsked(s.trace, t, i, approval);
      var q :| 0 <= q < |s.trace| && s.trace[q] == ApprovalAsked(t, i, approval);
      assert after[q] == s.trace[q] && after[|s.trace|] == Decided(approval, true);
    }
    forall i | 0 <= i < |steps| ensures PendingKey(steps[i].id) != DecisionKey(stepId) {
      ReservedKeysApart(stepId, steps[i].id);
    }
  }

  lemma MergeOk(trace: seq<Event>, t: int, steps: seq<Step>, ctx: Ctx, input: Ctx)
    requires CtxOk(trace, t, steps, ctx) && CtxOk(trace, t, steps, input)
    ensures CtxOk(trace, t, steps, ctx + input)
  {
  }

  lemma ClaimKeepsGate(plans: Plans, s: World, w: int)
    requires GateInv(plans, s) && WorkerAt(s, w).Selected?
    ensures GateInv(plans, ApplyClaim(s, w))
  {
    var Selected(id, snap) := WorkerAt(s, w);
    assert WorkerOk(s.trace, plans, s.workers[w]);
    GrowInv(plans, s, [Claimed(id)]);
    Grow(s.trace, [Claimed(id)]);
    TraceSnoc(plans, s.trace, Claimed(id));
  }

  lemma StoreKeepsGate(plans: Plans, s: World, c: int, now: int)
    requires GateInv(plans, s) && Enabled(plans, s, Store(c, now))
    ensures GateInv(plans, Apply(plans, s, Store(c, now)))
  {
    var call := s.calls[c];
    GrowInv(plans, s, [ResumeSaved(call.task)]);
    TraceSnoc(plans, s.trace, ResumeSaved(call.task));
    assert CallOk(s.trace + [ResumeSaved(call.task)], plans, call);
    MergeOk(s.trace + [ResumeSaved(call.task)], call.task, StepsOf(plans, call.task), call.snap.ctx, call.input);
  }

  lemma StepKeepsGate(plans: Plans, s: World, l: Label)
    requires WellFormedPlans(plans) && GateInv(plans, s) && Enabled(plans, s, l)
    ensures GateInv(plans, Apply(plans, s, l))
  {
    match l {
      case TakeTurn(w, newId, env, now) => TurnKeepsGate(plans, s, w, newId, env, now);
      case Decide(_, _, _) => DecideKeepsGate(plans, s, l);
      case Claim(w) => ClaimKeepsGate(plans, s, w);
      case Store(c, now) => StoreKeepsGate(plans, s, c, now);
      case _ =>
    }
  }

  lemma {:induction false} RunKeepsGate(plans: Plans, s: World, ls: seq<Label>)
    requires WellFormedPlans(plans) && GateInv(plans, s) && Valid(plans, s, ls)
    ensures GateInv(plans, Run(plans, s, ls))
    decreases ls
  {
    if ls != [] {
      StepKeepsGate(plans, s, ls[0]);
      RunKeepsGate(plans, Apply(plans, s, ls[0]), ls[1..]);
    }
  }

  lemma {:induction false} TraceOkAt(plans: Plans, trace: seq<Event>, p: nat)
    requires TraceOk(plans, trace) && p < |trace| && trace[p].Entered?
    ensures trace[p].step < |StepsOf(plans, trace[p].task)|
    ensures PassedOk(trace[..p], trace[p].task, StepsOf(plans, trace[p].task), trace[p].step)
    decreases trace
  {
    var past := trace[..|trace| - 1];
    if p < |past| {
      TraceOkAt(plans, past, p);
      assert past[..p] == trace[..p];
    }
  }

  /**
   MAIN RESULT. Whatever the workers, forms and approvers do, when a task enters step k, each approval
   step i before k was asked for by this task and then decided with true, both before that moment.
   */
  lemma GateHolds(plans: Plans, ls: seq<Label>, p: nat, i: nat)
    requires WellFormedPlans(plans) && Valid(plans, START, ls)
    requires var trace := Run(plans, START, ls).trace; p < |trace| && trace[p].Entered? && i < trace[p].step
    requires var e := Run(plans, START, ls).trace[p]; i < |StepsOf(plans, e.task)| && StepsOf(plans, e.task)[i].Approval?
    ensures var trace := Run(plans, START, ls).trace; Approved(trace[..p], trace[p].task, i)
  {
    RunKeepsGate(plans, START, ls);
    TraceOkAt(plans, Run(plans, START, ls).trace, p);
  }

  /** The same for what is stored: a row's StepIndex has passed only approved approval steps. */
  lemma StoredStepIsApproved(plans: Plans, ls: seq<Label>, t: int, i: nat)
    requires WellFormedPlans(plans) && Valid(plans, START, ls)
    requires var s := Run(plans, START, ls); t in s.rows && i < s.rows[t].step <= |StepsOf(plans, t)|
    requires StepsOf(plans, t)[i].Approval?
    ensures Approved(Run(plans, START, ls).trace, t, i)
  {
    RunKeepsGate(plans, START, ls);
    var s := Run(plans, START, ls);
    assert RowOk(s.trace, plans, t, s.rows[t]);
  }
}
