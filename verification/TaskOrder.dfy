/**
 Exclusion and step order of the task queue. Exclusion holds with split claims, as long as no resume is saved over
 a task that is being run. Order also needs claims and resumes whose snapshot is not behind the row.
 */
module TaskOrder {
  import opened Common
  import opened Steps
  import opened TaskQueue

  // ---------------------------------------------------------------- exclusion

  ghost predicate RunsTask(s: World, w: int, t: int)
  {
    w in s.workers && s.workers[w].Running? && s.workers[w].id == t
  }

  /** Every running worker's task is marked processing, and no two run the same one. */
  ghost predicate Exclusive(s: World)
  {
    (forall w, t :: RunsTask(s, w, t) ==> t in s.rows && s.rows[t].status == Processing)
    && (forall w, v, t :: RunsTask(s, w, t) && RunsTask(s, v, t) ==> w == v)
  }

  ghost predicate Quiet(s: World, t: int) { forall w :: !RunsTask(s, w, t) }

  /** A resume is saved while nobody runs the task. */
  ghost predicate QuietStore(s: World, l: Label)
  {
    l.Store? && l.c in s.calls ==> Quiet(s, s.calls[l.c].task)
  }

  /** What `Resume` checked when it read the row. */
  ghost predicate FetchedWaiting(s: World)
  {
    forall c :: c in s.calls && s.calls[c].Fetched? ==> s.calls[c].task in s.rows && s.calls[c].snap.status == WaitingUser
  }

  lemma StepKeepsFetched(plans: Plans, s: World, l: Label)
    requires FetchedWaiting(s) && Enabled(plans, s, l)
    ensures FetchedWaiting(Apply(plans, s, l))
  {
  }

  lemma StepKeepsExclusive(plans: Plans, s: World, l: Label)
    requires Exclusive(s) && FetchedWaiting(s) && Enabled(plans, s, l) && QuietStore(s, l)
    ensures Exclusive(Apply(plans, s, l)) && FetchedWaiting(Apply(plans, s, l))
  {
    StepKeepsFetched(plans, s, l);
    var s' := Apply(plans, s, l);
    forall w, t | RunsTask(s', w, t)
      ensures t in s'.rows && s'.rows[t].status == Processing
      ensures RunsTask(s, w, t) || (l == Claim(w) && !exists v :: RunsTask(s, v, t))
    {
      if !(l.Claim? && l.w == w) {
        assert RunsTask(s, w, t);
        assert l.TakeTurn? ==> RunsTask(s, l.w, s.workers[l.w].id);
      }
    }
  }

  /** The exact condition: saving a resume keeps exclusion if and only if nobody is running that task. */
  lemma StoreKeepsExclusiveIff(plans: Plans, s: World, c: int, now: int)
    requires Exclusive(s) && FetchedWaiting(s) && Enabled(plans, s, Store(c, now))
    ensures Exclusive(Apply(plans, s, Store(c, now))) <==> Quiet(s, s.calls[c].task)
  {
    if w :| RunsTask(s, w, s.calls[c].task) {
      assert RunsTask(Apply(plans, s, Store(c, now)), w, s.calls[c].task);
    } else {
      StepKeepsExclusive(plans, s, Store(c, now));
    }
  }

  ghost predicate AllQuiet(plans: Plans, s: World, ls: seq<Label>)
    decreases ls
  {
    ls == [] || (Enabled(plans, s, ls[0]) && QuietStore(s, ls[0]) && AllQuiet(plans, Apply(plans, s, ls[0]), ls[1..]))
  }

  lemma {:induction false} RunKeepsExclusive(plans: Plans, s: World, ls: seq<Label>)
    requires Exclusive(s) && FetchedWaiting(s) && Valid(plans, s, ls) && AllQuiet(plans, s, ls)
    ensures Exclusive(Run(plans, s, ls)) && FetchedWaiting(Run(plans, s, ls))
    decreases ls
  {
    if ls != [] {
      StepKeepsExclusive(plans, s, ls[0]);
      RunKeepsExclusive(plans, Apply(plans, s, ls[0]), ls[1..]);
    }
  }

  /** MAIN RESULT. No two workers execute one task at once, however SELECTs and guarded UPDATEs interleave. */
  lemma NoTaskRunsTwice(plans: Plans, ls: seq<Label>, w: int, v: int, t: int)
    requires Valid(plans, START, ls) && AllQuiet(plans, START, ls)
    requires RunsTask(Run(plans, START, ls), w, t) && RunsTask(Run(plans, START, ls), v, t)
    ensures w == v
  {
    RunKeepsExclusive(plans, START, ls);
  }

  // ---------------------------------------------------------------- order

  /** Claims, and quiet resumes of tasks not in progress, whose snapshot is not behind the row as it is by then. */
  ghost predicate Forward(s: World, l: Label)
  {
    QuietStore(s, l)
    && (l.Store? && l.c in s.calls && s.calls[l.c].Fetched? && s.calls[l.c].task in s.rows ==>
          s.rows[s.calls[l.c].task].status != Processing && s.rows[s.calls[l.c].task].step <= s.calls[l.c].snap.step)
    && (l.Claim? && WorkerAt(s, l.w).Selected? && Claimable(s, WorkerAt(s, l.w).id) ==>
          s.rows[WorkerAt(s, l.w).id].step <= WorkerAt(s, l.w).snap.step)
  }

  /** The guarded UPDATE would win. */
  predicate Claimable(s: World, t: int) { t in s.rows && s.rows[t].status == Pending }

  ghost predicate AllForward(plans: Plans, s: World, ls: seq<Label>)
    decreases ls
  {
    ls == [] || (Enabled(plans, s, ls[0]) && Forward(s, ls[0]) && AllForward(plans, Apply(plans, s, ls[0]), ls[1..]))
  }

  /** No step list reaches the index a failed condition jumps to. */
  ghost predicate Short(plans: Plans) { forall t :: |StepsOf(plans, t)| <= JUMP }

  /**
   What a trace says about one task: how often it was claimed and resumed, how far its successes have
   come, and whether they came in strictly increasing step order.
   */
  datatype Ledger = Ledger(claims: nat, resumes: nat, reached: nat, ordered: bool)

  function Book(l: Ledger, t: int, e: Event): Ledger
  {
    match e
    case Claimed(u) => if u == t then l.(claims := l.claims + 1) else l
    case ResumeSaved(u) => if u == t then l.(resumes := l.resumes + 1) else l
    case Succeeded(u, k) => if u == t then l.(reached := k + 1, ordered := l.ordered && l.reached <= k) else l
    case _ => l
  }

  function LedgerOf(trace: seq<Event>, t: int): Ledger
  {
    if trace == [] then Ledger(0, 0, 0, true)
    else Book(LedgerOf(trace[..|trace| - 1], t), t, trace[|trace| - 1])
  }

  lemma LedgerSnoc(trace: seq<Event>, e: Event, t: int)
    ensures LedgerOf(trace + [e], t) == Book(LedgerOf(trace, t), t, e)
  {
    assert (trace + [e])[..|trace|] == trace;
  }

  lemma TurnEventsAre(plan: Option<seq<Step>>, t: int, row: Row, ctx: Ctx, newId: int, env: Env)
    ensures var events := TurnEvents(plan, t, row, ctx, newId, env);
            if Iterate(plan, row, ctx, newId, env, 0).Next? then events == [Entered(t, row.step), Succeeded(t, row.step)]
            else events == [] || events == [Entered(t, row.step)]
                 || events == [Entered(t, row.step), ApprovalAsked(t, row.step, newId)]
  {
  }

  lemma LedgerTwo(trace: seq<Event>, e: Event, f: Event, u: int)
    ensures LedgerOf(trace + [e, f], u) == Book(Book(LedgerOf(trace, u), u, e), u, f)
  {
    LedgerSnoc(trace, e, u);
    LedgerSnoc(trace + [e], f, u);
    assert trace + [e, f] == trace + [e] + [f];
  }

  lemma LedgerTurn(plan: Option<seq<Step>>, trace: seq<Event>, t: int, row: Row, ctx: Ctx, newId: int, env: Env, u: int)
    ensures var l := LedgerOf(trace, u);
            var after := LedgerOf(trace + TurnEvents(plan, t, row, ctx, newId, env), u);
            after == if u == t && Iterate(plan, row, ctx, newId, env, 0).Next? then Book(l, u, Succeeded(t, row.step)) else l
  {
    TurnEventsAre(plan, t, row, ctx, newId, env);
    assert trace + [] == trace;
    LedgerSnoc(trace, Entered(t, row.step), u);
    LedgerTwo(trace, Entered(t, row.step), Succeeded(t, row.step), u);
    LedgerTwo(trace, Entered(t, row.step), ApprovalAsked(t, row.step, newId), u);
  }

  // ---------------------------------------------------------------- the invariant

  predicate RowInv(l: Ledger, row: Row)
  {
    l.ordered && (row.status != Processing ==> l.reached <= row.step)
  }

  /** A running copy stands at its row's step or has moved past it. */
  predicate CopyInv(l: Ledger, row: Row, copy: Row)
  {
    l.reached <= copy.step && row.step <= copy.step
  }

  ghost predicate WorkerInv(s: World, w: int)
  {
    w in s.workers && s.workers[w].Running? ==>
      var t := s.workers[w].id;
      t in s.rows && CopyInv(LedgerOf(s.trace, t), s.rows[t], s.workers[w].row)
  }

  ghost predicate TaskInv(s: World, t: int)
  {
    if t in s.rows then RowInv(LedgerOf(s.trace, t), s.rows[t])
    else LedgerOf(s.trace, t) == Ledger(0, 0, 0, true)
  }

  ghost predicate OrderInv(s: World)
  {
    Exclusive(s) && FetchedWaiting(s) && (forall t :: TaskInv(s, t)) && (forall w :: WorkerInv(s, w))
  }

  /** The row an iteration leaves behind, in the running copy or in the table. */
  lemma IterateKeepsRow(plan: Option<seq<Step>>, l: Ledger, row: Row, copy: Row, ctx: Ctx, newId: int, env: Env, now: int)
    requires |plan.GetOr([])| <= JUMP && row.status == Processing
    requires RowInv(l, row) && CopyInv(l, row, copy)
    ensures var turn := Iterate(plan, copy, ctx, newId, env, now);
            var l' := Book(l, 0, Succeeded(0, copy.step));
            && (turn.Next? ==> RowInv(l', row) && CopyInv(l', row, turn.row))
            && (turn.Save? ==> RowInv(l, turn.row) && row.step <= turn.row.step)
  {
  }

  /** A turn of task `id` as its ledger, row and copy see it. */
  lemma TurnOfTask(plans: Plans, s: World, w: int, newId: int, env: Env, now: int)
    requires Short(plans) && OrderInv(s) && Enabled(plans, s, TakeTurn(w, newId, env, now))
    ensures var Running(id, copy, ctx) := WorkerAt(s, w);
            var turn := Iterate(plans(id), copy, ctx, newId, env, now);
            var l' := LedgerOf(ApplyTurn(plans, s, w, newId, env, now).trace, id);
            && id in s.rows
            && (turn.Next? ==> RowInv(l', s.rows[id]) && CopyInv(l', s.rows[id], turn.row))
            && (turn.Save? ==> RowInv(l', turn.row))
  {
    var Running(id, copy, ctx) := WorkerAt(s, w);
    assert RunsTask(s, w, id) && WorkerInv(s, w) && TaskInv(s, id) && |StepsOf(plans, id)| <= JUMP;
    LedgerTurn(plans(id), s.trace, id, copy, ctx, newId, env, id);
    NextWhenever(plans(id), copy, ctx, newId, env, now);
    IterateKeepsRow(plans(id), LedgerOf(s.trace, id), s.rows[id], copy, ctx, newId, env, now);
  }

  lemma NextWhenever(plan: Option<seq<Step>>, row: Row, ctx: Ctx, newId: int, env: Env, now: int)
    ensures Iterate(plan, row, ctx, newId, env, now).Next? <==> Iterate(plan, row, ctx, newId, env, 0).Next?
  {
  }

  lemma TurnKeepsTask(plans: Plans, s: World, w: int, newId: int, env: Env, now: int, t: int)
    requires Short(plans) && OrderInv(s) && Enabled(plans, s, TakeTurn(w, newId, env, now))
    ensures TaskInv(ApplyTurn(plans, s, w, newId, env, now), t)
  {
    var Running(id, copy, ctx) := WorkerAt(s, w);
    if t == id {
      TurnOfTask(plans, s, w, newId, env, now);
    } else {
      assert TaskInv(s, t);
      LedgerTurn(plans(id), s.trace, id, copy, ctx, newId, env, t);
    }
  }

  lemma TurnKeepsRunner(plans: Plans, s: World, w: int, newId: int, env: Env, now: int)
    requires Short(plans) && OrderInv(s) && Enabled(plans, s, TakeTurn(w, newId, env, now))
    ensures WorkerInv(ApplyTurn(plans, s, w, newId, env, now), w)
  {
    TurnOfTask(plans, s, w, newId, env, now);
  }

  lemma TurnKeepsOthers(plans: Plans, s: World, w: int, newId: int, env: Env, now: int, v: int)
    requires OrderInv(s) && Enabled(plans, s, TakeTurn(w, newId, env, now)) && v != w
    ensures WorkerInv(ApplyTurn(plans, s, w, newId, env, now), v)
  {
    var Running(id, copy, ctx) := WorkerAt(s, w);
    assert RunsTask(s, w, id) && WorkerInv(s, v);
    if v in s.workers && s.workers[v].Running? {
      var u := s.workers[v].id;
      assert RunsTask(s, v, u);
      LedgerTurn(plans(id), s.trace, id, copy, ctx, newId, env, u);
      assert u != id && ApplyTurn(plans, s, w, newId, env, now).rows[u] == s.rows[u];
    }
  }

  lemma TurnKeepsOrder(plans: Plans, s: World, w: int, newId: int, env: Env, now: int)
    requires Short(plans) && OrderInv(s) && Enabled(plans, s, TakeTurn(w, newId, env, now))
    ensures OrderInv(ApplyTurn(plans, s, w, newId, env, now))
  {
    StepKeepsExclusive(plans, s, TakeTurn(w, newId, env, now));
    forall t ensures TaskInv(ApplyTurn(plans, s, w, newId, env, now), t) {
      TurnKeepsTask(plans, s, w, newId, env, now, t);
    }
    forall v ensures WorkerInv(ApplyTurn(plans, s, w, newId, env, now), v) {
      if v == w {
        TurnKeepsRunner(plans, s, w, newId, env, now);
      } else {
        TurnKeepsOthers(plans, s, w, newId, env, now, v);
      }
    }
  }

  lemma ClaimKeepsOrder(plans: Plans, s: World, w: int)
    requires OrderInv(s) && Enabled(plans, s, Claim(w)) && Forward(s, Claim(w))
    ensures OrderInv(ApplyClaim(s, w))
  {
    var id := WorkerAt(s, w).id;
    var s' := ApplyClaim(s, w);
    StepKeepsExclusive(plans, s, Claim(w));
    forall t ensures TaskInv(s', t) {
      assert TaskInv(s, t);
      LedgerSnoc(s.trace, Claimed(id), t);
    }
    forall v ensures WorkerInv(s', v) {
      assert WorkerInv(s, v) && TaskInv(s, id);
      LedgerSnoc(s.trace, Claimed(id), id);
      if v != w && v in s.workers && s.workers[v].Running? {
        assert RunsTask(s, v, s.workers[v].id);
        LedgerSnoc(s.trace, Claimed(id), s.workers[v].id);
      }
    }
  }

  /** The exact condition for one resume: nobody runs the task, and the snapshot is not behind the steps that succeeded. */
  lemma StoreKeepsOrderIff(plans: Plans, s: World, c: int, now: int)
    requires OrderInv(s) && Enabled(plans, s, Store(c, now))
    ensures OrderInv(Apply(plans, s, Store(c, now)))
            <==> Quiet(s, s.calls[c].task) && LedgerOf(s.trace, s.calls[c].task).reached <= s.calls[c].snap.step
  {
    var id := s.calls[c].task;
    var s' := Apply(plans, s, Store(c, now));
    StoreKeepsExclusiveIff(plans, s, c, now);
    LedgerSnoc(s.trace, ResumeSaved(id), id);
    assert TaskInv(s, id);
    if Quiet(s, id) && LedgerOf(s.trace, id).reached <= s.calls[c].snap.step {
      StoreKeepsOrder(plans, s, c, now);
    } else if Quiet(s, id) {
      assert !TaskInv(s', id);
    }
  }

  lemma StoreKeepsOrder(plans: Plans, s: World, c: int, now: int)
    requires OrderInv(s) && Enabled(plans, s, Store(c, now)) && Quiet(s, s.calls[c].task)
    requires LedgerOf(s.trace, s.calls[c].task).reached <= s.calls[c].snap.step
    ensures OrderInv(Apply(plans, s, Store(c, now)))
  {
    var id := s.calls[c].task;
    var s' := Apply(plans, s, Store(c, now));
    StepKeepsExclusive(plans, s, Store(c, now));
    forall t ensures TaskInv(s', t) {
      assert TaskInv(s, t);
      LedgerSnoc(s.trace, ResumeSaved(id), t);
    }
    forall v ensures WorkerInv(s', v) {
      assert WorkerInv(s, v);
      if v in s.workers && s.workers[v].Running? {
        assert RunsTask(s, v, s.workers[v].id);
        LedgerSnoc(s.trace, ResumeSaved(id), s.workers[v].id);
      }
    }
  }

  lemma OtherKeepsOrder(plans: Plans, s: World, l: Label)
    requires OrderInv(s) && Enabled(plans, s, l)
    requires !l.TakeTurn? && !l.Claim? && !l.Store?
    ensures OrderInv(Apply(plans, s, l))
  {
    var s' := Apply(plans, s, l);
    StepKeepsExclusive(plans, s, l);
    forall t ensures TaskInv(s', t) {
      assert TaskInv(s, t);
      if l.Decide? { LedgerSnoc(s.trace, Decided(l.approval, l.verdict), t); }
    }
    forall v ensures WorkerInv(s', v) {
      assert WorkerInv(s, v);
      if v in s.workers && s.workers[v].Running? && l.Decide? {
        LedgerSnoc(s.trace, Decided(l.approval, l.verdict), s.workers[v].id);
      }
    }
  }

  lemma StepKeepsOrder(plans: Plans, s: World, l: Label)
    requires Short(plans) && OrderInv(s) && Enabled(plans, s, l) && Forward(s, l)
    ensures OrderInv(Apply(plans, s, l))
  {
    match l {
      case TakeTurn(w, newId, env, now) => TurnKeepsOrder(plans, s, w, newId, env, now);
      case Claim(w) => ClaimKeepsOrder(plans, s, w);
      case Store(c, now) =>
        assert TaskInv(s, s.calls[c].task);
        StoreKeepsOrder(plans, s, c, now);
      case _ => OtherKeepsOrder(plans, s, l);
    }
  }

  lemma {:induction false} RunKeepsOrder(plans: Plans, s: World, ls: seq<Label>)
    requires Short(plans) && OrderInv(s) && Valid(plans, s, ls) && AllForward(plans, s, ls)
    ensures OrderInv(Run(plans, s, ls))
    decreases ls
  {
    if ls != [] {
      StepKeepsOrder(plans, s, ls[0]);
      RunKeepsOrder(plans, Apply(plans, s, ls[0]), ls[1..]);
    }
  }

  // ---------------------------------------------------------------- results

  lemma StepKeepsIndex(plans: Plans, s: World, l: Label, t: int)
    requires Short(plans) && OrderInv(s) && Enabled(plans, s, l) && Forward(s, l) && t in s.rows
    ensures t in Apply(plans, s, l).rows && s.rows[t].step <= Apply(plans, s, l).rows[t].step
  {
    if l.TakeTurn? {
      var Running(id, copy, ctx) := WorkerAt(s, l.w);
      assert WorkerInv(s, l.w) && TaskInv(s, id) && RunsTask(s, l.w, id) && |StepsOf(plans, id)| <= JUMP;
      IterateKeepsRow(plans(id), LedgerOf(s.trace, id), s.rows[id], copy, ctx, l.newId, l.env, l.now);
    }
  }

  /** MAIN RESULT. With claims and resumes that are not behind their row a stored StepIndex never goes back. */
  lemma {:induction false} StepIndexNeverDecreases(plans: Plans, s: World, ls: seq<Label>, t: int)
    requires Short(plans) && OrderInv(s) && Valid(plans, s, ls) && AllForward(plans, s, ls)
    ensures t in s.rows ==> t in Run(plans, s, ls).rows && s.rows[t].step <= Run(plans, s, ls).rows[t].step
    decreases ls
  {
    if ls != [] && t in s.rows {
      StepKeepsIndex(plans, s, ls[0], t);
      StepKeepsOrder(plans, s, ls[0]);
      StepIndexNeverDecreases(plans, Apply(plans, s, ls[0]), ls[1..], t);
    }
  }

  /** The exact condition for one claim: the order survives if and only if the snapshot is not behind the row. */
  lemma ClaimKeepsOrderIff(plans: Plans, s: World, w: int)
    requires OrderInv(s) && Enabled(plans, s, Claim(w)) && Claimable(s, WorkerAt(s, w).id)
    ensures OrderInv(ApplyClaim(s, w)) <==> s.rows[WorkerAt(s, w).id].step <= WorkerAt(s, w).snap.step
  {
    if s.rows[WorkerAt(s, w).id].step <= WorkerAt(s, w).snap.step {
      ClaimKeepsOrder(plans, s, w);
    } else {
      assert !WorkerInv(ApplyClaim(s, w), w);
    }
  }

  lemma {:induction false} OrderedTrace(trace: seq<Event>, p: nat, q: nat)
    requires p < q < |trace| && trace[p].Succeeded? && trace[q].Succeeded? && trace[p].task == trace[q].task
    requires LedgerOf(trace, trace[p].task).ordered
    ensures trace[p].step < trace[q].step
    decreases trace
  {
    var past := trace[..|trace| - 1];
    if q < |past| {
      OrderedTrace(past, p, q);
    } else {
      ReachedCovers(past, p);
    }
  }

  lemma {:induction false} ReachedCovers(trace: seq<Event>, p: nat)
    requires p < |trace| && trace[p].Succeeded? && LedgerOf(trace, trace[p].task).ordered
    ensures trace[p].step < LedgerOf(trace, trace[p].task).reached
    decreases trace
  {
    var past := trace[..|trace| - 1];
    if p < |past| {
      ReachedCovers(past, p);
    }
  }

  /**
   MAIN RESULT. With claims and resumes that are not behind their row, steps of a task succeed in strictly increasing
   order, hence each at most once.
   */
  lemma StepsSucceedOnceInOrder(plans: Plans, ls: seq<Label>, p: nat, q: nat)
    requires Short(plans) && Valid(plans, START, ls) && AllForward(plans, START, ls)
    requires var trace := Run(plans, START, ls).trace;
             p < q < |trace| && trace[p].Succeeded? && trace[q].Succeeded? && trace[p].task == trace[q].task
    ensures var trace := Run(plans, START, ls).trace; trace[p].step < trace[q].step
  {
    RunKeepsOrder(plans, START, ls);
    var trace := Run(plans, START, ls).trace;
    assert TaskInv(Run(plans, START, ls), trace[p].task);
    OrderedTrace(trace, p, q);
  }
}
