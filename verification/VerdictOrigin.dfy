/**
 Whose verdict lets a task through. A decision is handed to `Resume` for the approval that the task names as pending at that
 moment, but `Resume` reads the task again and never compares: by then the task may have asked anew. As long as no verdict is
 saved over another question, every approval step is passed by the very approval that the task names as pending.
 */
module VerdictOrigin {
  import opened Common
  import opened Steps
  import opened TaskQueue
  import opened ApprovalGate

  /** Task `t` asked for approval `a` at step `i`, and it was then decided with true. */
  ghost predicate Granted(trace: seq<Event>, t: int, i: nat, a: int)
  {
    exists q, r :: 0 <= q < r < |trace| && trace[q] == ApprovalAsked(t, i, a) && trace[r] == Decided(a, true)
  }

  lemma GrantedGrows(trace: seq<Event>, more: seq<Event>)
    ensures forall t, i, a :: Granted(trace, t, i, a) ==> Granted(trace + more, t, i, a)
  {
    var all := trace + more;
    forall t, i, a | Granted(trace, t, i, a) ensures Granted(all, t, i, a) {
      var q, r :| 0 <= q < r < |trace| && trace[q] == ApprovalAsked(t, i, a) && trace[r] == Decided(a, true);
      assert all[q] == trace[q] && all[r] == trace[r];
    }
  }

  lemma SavingGrantsNothing(trace: seq<Event>, saved: int, t: int, i: nat, a: int)
    ensures Granted(trace + [ResumeSaved(saved)], t, i, a) <==> Granted(trace, t, i, a)
  {
    GrantedGrows(trace, [ResumeSaved(saved)]);
    var all := trace + [ResumeSaved(saved)];
    if Granted(all, t, i, a) {
      var q, r :| 0 <= q < r < |all| && all[q] == ApprovalAsked(t, i, a) && all[r] == Decided(a, true);
      assert trace[q] == all[q] && trace[r] == all[r];
    }
  }

  // ---------------------------------------------------------------- contexts

  predicate SaysYes(step: Step, ctx: Ctx)
  {
    DecisionKey(step.id) in ctx && ctx[DecisionKey(step.id)] == Bool(true)
  }

  predicate NamesPending(step: Step, ctx: Ctx)
  {
    PendingKey(step.id) in ctx && ctx[PendingKey(step.id)].Num?
  }

  /** The approval that the context names as pending for step `i` is granted. */
  ghost predicate PendingGranted(trace: seq<Event>, t: int, steps: seq<Step>, i: nat, ctx: Ctx)
  {
    i < |steps| && NamesPending(steps[i], ctx) && Granted(trace, t, i, ctx[PendingKey(steps[i].id)].n)
  }

  /** A context at step `k`: a yes at this step is the pending approval's own, and nothing is known of later steps. */
  ghost predicate CtxOwn(trace: seq<Event>, t: int, steps: seq<Step>, k: nat, ctx: Ctx)
  {
    forall i :: 0 <= i < |steps| && steps[i].Approval? ==>
      && (i == k && SaysYes(steps[i], ctx) ==> PendingGranted(trace, t, steps, i, ctx))
      && (i > k ==> !SaysYes(steps[i], ctx) && !NamesPending(steps[i], ctx))
  }

  ghost predicate RowOwn(trace: seq<Event>, plans: Plans, t: int, row: Row)
  {
    var steps := StepsOf(plans, t);
    CtxOwn(trace, t, steps, row.step, row.ctx)
    && (row.status == WaitingUser && row.step < |steps| && steps[row.step].Approval? ==> !SaysYes(steps[row.step], row.ctx))
  }

  ghost predicate WorkerOwn(trace: seq<Event>, plans: Plans, w: Worker)
  {
    match w
    case Idle => true
    case Selected(id, snap) => RowOwn(trace, plans, id, snap)
    case Running(id, row, ctx) =>
      CtxOwn(trace, id, StepsOf(plans, id), row.step, row.ctx) && CtxOwn(trace, id, StepsOf(plans, id), row.step, ctx)
  }

  /** A yes on its way comes alone, from an approval that was granted; nothing else looks like one or like a question. */
  ghost predicate InputOwn(trace: seq<Event>, t: int, steps: seq<Step>, input: Ctx, source: Option<int>)
  {
    forall i :: 0 <= i < |steps| && steps[i].Approval? ==>
      && !NamesPending(steps[i], input)
      && (SaysYes(steps[i], input) ==>
            source.Some? && Granted(trace, t, i, source.value) && PendingKey(steps[i].id) !in input)
  }

  ghost predicate CallOwn(trace: seq<Event>, plans: Plans, c: Call)
  {
    InputOwn(trace, c.task, StepsOf(plans, c.task), c.input, c.source)
    && (c.Fetched? ==> c.snap.status == WaitingUser && RowOwn(trace, plans, c.task, c.snap))
  }

  ghost predicate OwnInv(plans: Plans, s: World)
  {
    (forall t :: t in s.rows ==> RowOwn(s.trace, plans, t, s.rows[t]))
    && (forall w :: w in s.workers ==> WorkerOwn(s.trace, plans, s.workers[w]))
    && (forall c :: c in s.calls ==> CallOwn(s.trace, plans, s.calls[c]))
  }

  lemma GrowOwn(plans: Plans, s: World, more: seq<Event>)
    requires OwnInv(plans, s)
    ensures forall t :: t in s.rows ==> RowOwn(s.trace + more, plans, t, s.rows[t])
    ensures forall w :: w in s.workers ==> WorkerOwn(s.trace + more, plans, s.workers[w])
    ensures forall c :: c in s.calls ==> CallOwn(s.trace + more, plans, s.calls[c])
  {
    GrantedGrows(s.trace, more);
  }

  // ---------------------------------------------------------------- one turn

  /** A step brings no yes, and no question but its own. */
  lemma StepSaysNothing(steps: seq<Step>, k: nat, ticket: Option<int>, ctx: Ctx, newId: int, env: Env, i: nat)
    requires k < |steps| && StepGuarded(steps, k) && i < |steps| && steps[i].Approval?
    ensures var r := RunStep(steps[k], k, ticket, ctx, newId, env);
            && (SaysYes(steps[i], r.ctx) ==> SaysYes(steps[i], ctx))
            && (i != k && NamesPending(steps[i], r.ctx) ==> NamesPending(steps[i], ctx))
  {
    var r := RunStep(steps[k], k, ticket, ctx, newId, env);
    ReservedKeysApart(steps[i].id, steps[k].id);
    ReservedKeysApart(steps[k].id, steps[i].id);
    if SaysYes(steps[i], r.ctx) && !SaysYes(steps[i], ctx) {
      StepWrites(steps[k], k, ticket, ctx, newId, env, DecisionKey(steps[i].id));
    }
    if NamesPending(steps[i], r.ctx) && !NamesPending(steps[i], ctx) {
      StepWrites(steps[k], k, ticket, ctx, newId, env, PendingKey(steps[i].id));
    }
  }

  /** What an iteration leaves, in the copy or in the row. */
  lemma IterateKeepsOwn(plans: Plans, trace: seq<Event>, t: int, row: Row, ctx: Ctx, newId: int, env: Env, now: int)
    requires WellFormed(StepsOf(plans, t))
    requires CtxOwn(trace, t, StepsOf(plans, t), row.step, row.ctx) && CtxOwn(trace, t, StepsOf(plans, t), row.step, ctx)
    requires row.status == Processing
    ensures var turn := Iterate(plans(t), row, ctx, newId, env, now);
            && (turn.Next? ==> CtxOwn(trace, t, StepsOf(plans, t), turn.row.step, turn.row.ctx)
                               && CtxOwn(trace, t, StepsOf(plans, t), turn.row.step, turn.ctx))
            && (turn.Save? ==> RowOwn(trace, plans, t, turn.row))
  {
    var steps := StepsOf(plans, t);
    if plans(t).Some? && row.step < |steps| {
      forall i | 0 <= i < |steps| && steps[i].Approval?
        ensures var r := RunStep(steps[row.step], row.step, row.ticket, ctx, newId, env);
                && (SaysYes(steps[i], r.ctx) ==> SaysYes(steps[i], ctx))
                && (i != row.step && NamesPending(steps[i], r.ctx) ==> NamesPending(steps[i], ctx))
      {
        StepSaysNothing(steps, row.step, row.ticket, ctx, newId, env, i);
      }
    }
  }

  // ---------------------------------------------------------------- decisions and resumes

  lemma DecisionGranted(plans: Plans, s: World, approval: int, verdict: bool, t: int, stepId: string)
    requires approval in s.approvals && Matches(s, approval, t, stepId)
    requires CtxOk(s.trace, t, StepsOf(plans, t), s.rows[t].ctx)
    ensures InputOwn(s.trace + [Decided(approval, verdict)], t, StepsOf(plans, t),
                     map[DecisionKey(stepId) := Bool(verdict)], Some(approval))
  {
    var steps := StepsOf(plans, t);
    var after := s.trace + [Decided(approval, verdict)];
    forall i | 0 <= i < |steps| && steps[i].Approval? && DecisionKey(steps[i].id) == DecisionKey(stepId) && verdict
      ensures Granted(after, t, i, approval)
    {
      ReservedKeysApart(steps[i].id, stepId);
      assert IsAsked(s.trace, t, i, approval);
      var q :| 0 <= q < |s.trace| && s.trace[q] == ApprovalAsked(t, i, approval);
      assert after[q] == s.trace[q] && after[|s.trace|] == Decided(approval, true);
    }
    forall i | 0 <= i < |steps| ensures PendingKey(steps[i].id) != DecisionKey(stepId) {
      ReservedKeysApart(stepId, steps[i].id);
    }
  }

  /** Every yes that a resume saves for the step it read, or a later one, meets a granted pending approval there. */
  ghost predicate OwnStore(plans: Plans, s: World, l: Label)
  {
    l.Store? && l.c in s.calls && s.calls[l.c].Fetched? ==>
      var call := s.calls[l.c];
      var steps := StepsOf(plans, call.task);
      forall i :: call.snap.step <= i < |steps| && steps[i].Approval? && SaysYes(steps[i], call.input) ==>
        PendingGranted(s.trace, call.task, steps, i, call.snap.ctx)
  }

  /** What the code could compare: the row that was read still names the approval that was decided. */
  ghost predicate StillNamed(plans: Plans, s: World, l: Label)
  {
    l.Store? && l.c in s.calls && s.calls[l.c].Fetched? ==>
      var call := s.calls[l.c];
      var steps := StepsOf(plans, call.task);
      forall i :: call.snap.step <= i < |steps| && steps[i].Approval? && SaysYes(steps[i], call.input) ==>
        NamesPending(steps[i], call.snap.ctx) && Some(call.snap.ctx[PendingKey(steps[i].id)].n) == call.source
  }

  lemma StoreKeepsOwn(plans: Plans, s: World, c: int, now: int)
    requires OwnInv(plans, s) && Enabled(plans, s, Store(c, now)) && OwnStore(plans, s, Store(c, now))
    ensures OwnInv(plans, Apply(plans, s, Store(c, now)))
  {
    GrowOwn(plans, s, [ResumeSaved(s.calls[c].task)]);
    GrantedGrows(s.trace, [ResumeSaved(s.calls[c].task)]);
    var call := s.calls[c];
    var trace := s.trace + [ResumeSaved(call.task)];
    assert CallOwn(trace, plans, call);
    MergeOwn(trace, plans, call, now);
  }

  lemma MergeOwn(trace: seq<Event>, plans: Plans, call: Call, now: int)
    requires call.Fetched? && CallOwn(trace, plans, call)
    requires var steps := StepsOf(plans, call.task);
             forall i :: call.snap.step <= i < |steps| && steps[i].Approval? && SaysYes(steps[i], call.input) ==>
               PendingGranted(trace, call.task, steps, i, call.snap.ctx)
    ensures RowOwn(trace, plans, call.task, Resumed(call.snap, call.input, now))
  {
  }

  /**
   The exact condition for one resume: yeses stay with their own approvals if and only if each one it saves meets a granted
   pending approval. That is so whenever the row read still names the approval decided; `Resume` does not look.
   */
  lemma StoreKeepsOwnIff(plans: Plans, s: World, c: int, now: int)
    requires OwnInv(plans, s) && Enabled(plans, s, Store(c, now))
    ensures OwnInv(plans, Apply(plans, s, Store(c, now))) <==> OwnStore(plans, s, Store(c, now))
    ensures StillNamed(plans, s, Store(c, now)) ==> OwnStore(plans, s, Store(c, now))
  {
    var call := s.calls[c];
    var steps := StepsOf(plans, call.task);
    assert CallOwn(s.trace, plans, call);
    if OwnStore(plans, s, Store(c, now)) {
      StoreKeepsOwn(plans, s, c, now);
    } else {
      var i :| call.snap.step <= i < |steps| && steps[i].Approval? && SaysYes(steps[i], call.input)
            && !PendingGranted(s.trace, call.task, steps, i, call.snap.ctx);
      var s' := Apply(plans, s, Store(c, now));
      if NamesPending(steps[i], call.snap.ctx) {
        SavingGrantsNothing(s.trace, call.task, call.task, i, call.snap.ctx[PendingKey(steps[i].id)].n);
      }
      assert !PendingGranted(s'.trace, call.task, steps, i, s'.rows[call.task].ctx);
      assert !RowOwn(s'.trace, plans, call.task, s'.rows[call.task]);
    }
  }

  // ---------------------------------------------------------------- runs

  lemma TurnKeepsOwn(plans: Plans, s: World, w: int, newId: int, env: Env, now: int)
    requires WellFormedPlans(plans) && OwnInv(plans, s) && WorkerAt(s, w).Running? && WorkerAt(s, w).row.status == Processing
    ensures OwnInv(plans, ApplyTurn(plans, s, w, newId, env, now))
  {
    var Running(id, row, ctx) := WorkerAt(s, w);
    assert WellFormed(StepsOf(plans, id));
    var events := TurnEvents(plans(id), id, row, ctx, newId, env);
    GrowOwn(plans, s, events);
    assert WorkerOwn(s.trace + events, plans, s.workers[w]);
    IterateKeepsOwn(plans, s.trace + events, id, row, ctx, newId, env, now);
  }

  lemma DecideKeepsOwn(plans: Plans, s: World, l: Label)
    requires GateInv(plans, s) && OwnInv(plans, s) && l.Decide? && Enabled(plans, s, l)
    ensures OwnInv(plans, Apply(plans, s, l))
  {
    var s' := Apply(plans, s, l);
    GrowOwn(plans, s, [Decided(l.approval, l.verdict)]);
    forall c | c in s'.calls ensures CallOwn(s'.trace, plans, s'.calls[c]) {
      if c in l.calls {
        var t, stepId := l.calls[c].0, l.calls[c].1;
        assert Matches(s, l.approval, t, stepId);
        assert RowOk(s.trace, plans, t, s.rows[t]);
        DecisionGranted(plans, s, l.approval, l.verdict, t, stepId);
      }
    }
  }

  lemma ClaimKeepsOwn(plans: Plans, s: World, w: int)
    requires OwnInv(plans, s) && WorkerAt(s, w).Selected?
    ensures OwnInv(plans, ApplyClaim(s, w))
  {
    GrowOwn(plans, s, [Claimed(WorkerAt(s, w).id)]);
    assert WorkerOwn(s.trace, plans, s.workers[w]);
    GrantedGrows(s.trace, [Claimed(WorkerAt(s, w).id)]);
  }

  /** Running copies are marked processing. */
  ghost predicate Marked(s: World)
  {
    forall w :: w in s.workers && s.workers[w].Running? ==> s.workers[w].row.status == Processing
  }

  lemma OtherKeepsOwn(plans: Plans, s: World, l: Label)
    requires OwnInv(plans, s) && Enabled(plans, s, l)
    requires !l.TakeTurn? && !l.Decide? && !l.Claim? && !l.Store?
    ensures OwnInv(plans, Apply(plans, s, l))
  {
  }

  lemma StepKeepsOwn(plans: Plans, s: World, l: Label)
    requires WellFormedPlans(plans) && GateInv(plans, s) && OwnInv(plans, s) && Marked(s)
    requires Enabled(plans, s, l) && OwnStore(plans, s, l)
    ensures OwnInv(plans, Apply(plans, s, l))
  {
    if l.TakeTurn? {
      TurnKeepsOwn(plans, s, l.w, l.newId, l.env, l.now);
    } else if l.Decide? {
      DecideKeepsOwn(plans, s, l);
    } else if l.Claim? {
      ClaimKeepsOwn(plans, s, l.w);
    } else if l.Store? {
      StoreKeepsOwn(plans, s, l.c, l.now);
    } else {
      OtherKeepsOwn(plans, s, l);
    }
  }

  lemma StepKeepsMarked(plans: Plans, s: World, l: Label)
    requires Marked(s) && Enabled(plans, s, l)
    ensures Marked(Apply(plans, s, l))
  {
  }

  ghost predicate AllOwn(plans: Plans, s: World, ls: seq<Label>)
    decreases ls
  {
    ls == [] || (Enabled(plans, s, ls[0]) && OwnStore(plans, s, ls[0]) && AllOwn(plans, Apply(plans, s, ls[0]), ls[1..]))
  }

  lemma {:induction false} RunKeepsOwn(plans: Plans, s: World, ls: seq<Label>)
    requires WellFormedPlans(plans) && GateInv(plans, s) && OwnInv(plans, s) && Marked(s)
    requires Valid(plans, s, ls) && AllOwn(plans, s, ls)
    ensures OwnInv(plans, Run(plans, s, ls))
    decreases ls
  {
    if ls != [] {
      StepKeepsOwn(plans, s, ls[0]);
      StepKeepsMarked(plans, s, ls[0]);
      StepKeepsGate(plans, s, ls[0]);
      RunKeepsOwn(plans, Apply(plans, s, ls[0]), ls[1..]);
    }
  }

  ghost predicate AllNamed(plans: Plans, s: World, ls: seq<Label>)
    decreases ls
  {
    ls == [] || (Enabled(plans, s, ls[0]) && StillNamed(plans, s, ls[0]) && AllNamed(plans, Apply(plans, s, ls[0]), ls[1..]))
  }

  /** Comparing the pending id before each save would be enough. */
  lemma {:induction false} NamedRunsAreOwn(plans: Plans, s: World, ls: seq<Label>)
    requires WellFormedPlans(plans) && GateInv(plans, s) && OwnInv(plans, s) && Marked(s)
    requires Valid(plans, s, ls) && AllNamed(plans, s, ls)
    ensures AllOwn(plans, s, ls)
    decreases ls
  {
    if ls != [] {
      if ls[0].Store? {
        StoreKeepsOwnIff(plans, s, ls[0].c, ls[0].now);
      }
      StepKeepsOwn(plans, s, ls[0]);
      StepKeepsMarked(plans, s, ls[0]);
      StepKeepsGate(plans, s, ls[0]);
      NamedRunsAreOwn(plans, Apply(plans, s, ls[0]), ls[1..]);
    }
  }

  /**
   MAIN RESULT. In every run whose resumes meet that condition, stale claims and crashes allowed: whenever a worker is about to
   pass an approval step, the approval that the task names as pending was asked for by this task at this step and then
   decided with true. No form, and no decision on any other approval, an earlier one of the same step included, does it.
   */
  lemma StepsPassOnTheirOwnApproval(plans: Plans, ls: seq<Label>, w: int, newId: int, env: Env)
    requires WellFormedPlans(plans) && Valid(plans, START, ls) && AllOwn(plans, START, ls)
    requires var worker := WorkerAt(Run(plans, START, ls), w);
             && worker.Running? && worker.row.step < |StepsOf(plans, worker.id)|
             && StepsOf(plans, worker.id)[worker.row.step].Approval?
             && RunStep(StepsOf(plans, worker.id)[worker.row.step], worker.row.step, worker.row.ticket, worker.ctx, newId, env).outcome.Advance?
    ensures var s := Run(plans, START, ls);
            var Running(t, row, ctx) := WorkerAt(s, w);
            PendingGranted(s.trace, t, StepsOf(plans, t), row.step, ctx)
  {
    RunKeepsOwn(plans, START, ls);
    var s := Run(plans, START, ls);
    assert WorkerOwn(s.trace, plans, s.workers[w]);
  }
}
